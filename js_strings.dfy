/**
 * The JavaScript string operations the server and client code use:
 * `trim`, `toLowerCase`, `includes`, `startsWith`, `indexOf`,
 * `lastIndexOf`, and the decimal rendering of a non-negative integer.
 */
module JsStrings {
  import opened JsValues

  /** `\s` in a regular expression and the characters `trim()` removes. */
  predicate IsSpace(c: char)
  {
    || c == '\t' || c == '\n' || c == '\U{B}' || c == '\U{C}' || c == '\r' || c == ' '
    || c == '\U{A0}' || c == '\U{1680}' || ('\U{2000}' <= c <= '\U{200A}')
    || c == '\U{2028}' || c == '\U{2029}' || c == '\U{202F}' || c == '\U{205F}'
    || c == '\U{3000}' || c == '\U{FEFF}'
  }

  /** The characters at which `.` stops and multiline `$` matches. */
  predicate IsLineTerminator(c: char)
  {
    c == '\n' || c == '\r' || c == '\U{2028}' || c == '\U{2029}'
  }

  /** Leading whitespace removed: a suffix of `s` that starts with a non-space. */
  function TrimStart(s: string): (r: string)
    ensures |r| <= |s| && r == s[|s| - |r|..]
    ensures r == [] || !IsSpace(r[0])
  {
    if s != [] && IsSpace(s[0]) then TrimStart(s[1..]) else s
  }

  /** What `TrimStart` removes is whitespace. */
  lemma {:induction false} TrimStartDropsSpaces(s: string)
    ensures forall i :: 0 <= i < |s| - |TrimStart(s)| ==> IsSpace(s[i])
    decreases |s|
  {
    if s != [] && IsSpace(s[0]) {
      TrimStartDropsSpaces(s[1..]);
      assert forall i :: 1 <= i < |s| - |TrimStart(s)| ==> s[i] == s[1..][i - 1];
    }
  }

  /** Trailing whitespace removed: a prefix of `s` that ends with a non-space. */
  function TrimEnd(s: string): (r: string)
    ensures |r| <= |s| && r == s[..|r|]
    ensures r == [] || !IsSpace(r[|r| - 1])
  {
    if s != [] && IsSpace(s[|s| - 1]) then TrimEnd(s[..|s| - 1]) else s
  }

  /** What `TrimEnd` removes is whitespace. */
  lemma {:induction false} TrimEndDropsSpaces(s: string)
    ensures forall i :: |TrimEnd(s)| <= i < |s| ==> IsSpace(s[i])
    decreases |s|
  {
    if s != [] && IsSpace(s[|s| - 1]) {
      TrimEndDropsSpaces(s[..|s| - 1]);
    }
  }

  /** `s.trim()`. */
  function Trim(s: string): string
  {
    TrimEnd(TrimStart(s))
  }

  /** `toLowerCase` on one character, for the ASCII letters. */
  function LowerChar(c: char): char
  {
    if 'A' <= c <= 'Z' then (c as int + 32) as char else c
  }

  /** `s.toLowerCase()`, for the ASCII letters. */
  function Lower(s: string): string
  {
    seq(|s|, i requires 0 <= i < |s| => LowerChar(s[i]))
  }

  /** `s.includes(sub)`. */
  predicate Contains(s: string, sub: string)
    decreases |s|
  {
    sub <= s || (s != [] && Contains(s[1..], sub))
  }

  /** A string that occurs in `b` also occurs in `a + b`. */
  lemma {:induction false} ContainsSuffix(a: string, b: string, sub: string)
    requires Contains(b, sub)
    ensures Contains(a + b, sub)
    decreases |a|
  {
    if a != [] {
      assert (a + b)[1..] == a[1..] + b;
      ContainsSuffix(a[1..], b, sub);
    } else {
      assert a + b == b;
    }
  }

  /** Every character of a string that occurs in `s` is a character of `s`. */
  lemma {:induction false} ContainsChars(s: string, sub: string, k: nat)
    requires Contains(s, sub) && k < |sub|
    ensures sub[k] in s
    decreases |s|
  {
    if sub <= s {
      assert s[k] == sub[k];
    } else {
      ContainsChars(s[1..], sub, k);
      assert s == [s[0]] + s[1..];
    }
  }

  /** `s` holds `a` immediately followed by `b` somewhere. */
  predicate HasPair(s: string, a: char, b: char)
  {
    exists i :: 0 <= i < |s| - 1 && s[i] == a && s[i + 1] == b
  }

  /** Two neighbouring characters of a string that occurs in `s` are neighbours in `s`. */
  lemma {:induction false} ContainsPair(s: string, sub: string, k: nat)
    requires Contains(s, sub) && k + 1 < |sub|
    ensures HasPair(s, sub[k], sub[k + 1])
    decreases |s|
  {
    if sub <= s {
      assert s[k] == sub[k] && s[k + 1] == sub[k + 1];
    } else {
      ContainsPair(s[1..], sub, k);
      var i :| 0 <= i < |s[1..]| - 1 && s[1..][i] == sub[k] && s[1..][i + 1] == sub[k + 1];
      assert s[i + 1] == sub[k] && s[i + 2] == sub[k + 1];
    }
  }

  /** An occurrence at index `i`, stated as a slice, makes `Contains` true. */
  lemma {:induction false} ContainsAt(s: string, sub: string, i: nat)
    requires i + |sub| <= |s| && s[i..i + |sub|] == sub
    ensures Contains(s, sub)
    decreases i
  {
    if i > 0 {
      assert s[1..][i - 1..i - 1 + |sub|] == s[i..i + |sub|];
      ContainsAt(s[1..], sub, i - 1);
    }
  }

  /** `s.indexOf(c, from)`, with `None` for -1. */
  function IndexOf(s: string, c: char, from: nat): (r: Option<nat>)
    decreases |s| - from
    ensures r.Some? ==> from <= r.value < |s| && s[r.value] == c
    ensures r.Some? ==> forall k :: from <= k < r.value ==> s[k] != c
    ensures r.None? ==> forall k :: from <= k < |s| ==> s[k] != c
  {
    if from >= |s| then None
    else if s[from] == c then Some(from)
    else IndexOf(s, c, from + 1)
  }

  /** `s.lastIndexOf(c)`, with `None` for -1. */
  function LastIndexOf(s: string, c: char): (r: Option<nat>)
    ensures r.Some? ==> r.value < |s| && s[r.value] == c
    ensures r.Some? ==> forall k :: r.value < k < |s| ==> s[k] != c
    ensures r.None? ==> forall k :: 0 <= k < |s| ==> s[k] != c
  {
    if s == [] then None
    else if s[|s| - 1] == c then Some(|s| - 1)
    else LastIndexOf(s[..|s| - 1], c)
  }

  /**
   * `s.replace(/<marker>\s*\/g, '')`: every occurrence of `marker` the
   * left-to-right scan reaches is removed together with the whitespace that
   * follows it.
   */
  function StripMarker(s: string, marker: string): (r: string)
    requires |marker| > 0
    ensures |r| <= |s|
    decreases |s|
  {
    if s == [] then []
    else if marker <= s then StripMarker(TrimStart(s[|marker|..]), marker)
    else [s[0]] + StripMarker(s[1..], marker)
  }

  /** Text in which no marker can start is kept as it is. */
  lemma {:induction false} StripMarkerKeeps(a: string, b: string, marker: string)
    requires |marker| > 0
    requires forall k :: 0 <= k < |a| ==> a[k] != marker[0]
    ensures StripMarker(a + b, marker) == a + StripMarker(b, marker)
    decreases |a|
  {
    if a == [] {
      assert a + b == b;
    } else {
      var s := a + b;
      assert s[0] == a[0] && s[1..] == a[1..] + b;
      assert s[0] != marker[0];
      StripMarkerKeeps(a[1..], b, marker);
    }
  }

  /** A marker at the start goes, together with the whitespace after it. */
  lemma StripMarkerAt(marker: string, rest: string)
    requires |marker| > 0
    ensures StripMarker(marker + rest, marker) == StripMarker(TrimStart(rest), marker)
  {
    var s := marker + rest;
    assert marker <= s;
    assert s[|marker|..] == rest;
  }

  /** A text shorter than the marker cannot hold it and is kept as it is. */
  lemma {:induction false} StripMarkerShort(s: string, marker: string)
    requires 0 < |marker| && |s| < |marker|
    ensures StripMarker(s, marker) == s
    decreases |s|
  {
    if s != [] {
      StripMarkerShort(s[1..], marker);
      assert [s[0]] + s[1..] == s;
    }
  }

  function DigitChar(d: nat): char
    requires d < 10
  {
    ('0' as int + d) as char
  }

  /** The decimal form of `n` (template-literal interpolation of a count). */
  function NatToString(n: nat): (r: string)
    ensures |r| > 0
    ensures forall i :: 0 <= i < |r| ==> '0' <= r[i] <= '9'
  {
    if n < 10 then [DigitChar(n)] else NatToString(n / 10) + [DigitChar(n % 10)]
  }
}
