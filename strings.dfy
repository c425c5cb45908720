/**
 * The JavaScript string operations the core relies on: `trim`, ASCII
 * `toLowerCase`, `includes`, `substring`, `split` on one character, `join`,
 * and number-to-text conversion in template literals.
 */
module Strings {

  /** JavaScript's `\s` class: the characters `trim()` removes and `\s` matches. */
  predicate IsSpace(c: char)
  {
    c == ' ' || c == '\t' || c == '\n' || c == '\U{000B}' || c == '\U{000C}' || c == '\r'
    || c == '\U{00A0}' || c == '\U{1680}' || ('\U{2000}' <= c <= '\U{200A}')
    || c == '\U{2028}' || c == '\U{2029}' || c == '\U{202F}' || c == '\U{205F}'
    || c == '\U{3000}' || c == '\U{FEFF}'
  }

  /** The characters a regular-expression `.` does not match. */
  predicate IsLineTerminator(c: char)
  {
    c == '\n' || c == '\r' || c == '\U{2028}' || c == '\U{2029}'
  }

  lemma LineTerminatorIsSpace(c: char)
    requires IsLineTerminator(c)
    ensures IsSpace(c)
  {
  }

  predicate AllSpace(s: string)
  {
    forall i | 0 <= i < |s| :: IsSpace(s[i])
  }

  predicate NoSpace(s: string)
  {
    forall i | 0 <= i < |s| :: !IsSpace(s[i])
  }

  /** Neither end of `s` is a space character. */
  predicate Trimmed(s: string)
  {
    s == [] || (!IsSpace(s[0]) && !IsSpace(s[|s| - 1]))
  }

  /** The number of space characters `s` starts with. */
  function LeadingSpaces(s: string): (n: nat)
    ensures n <= |s| && (n < |s| ==> !IsSpace(s[n]))
    ensures AllSpace(s[..n])
  {
    if s == [] || !IsSpace(s[0]) then 0
    else
      var m := LeadingSpaces(s[1..]);
      assert forall k | 1 <= k < 1 + m :: s[k] == s[1..][..m][k - 1];
      1 + m
  }

  /** The number of space characters `s` ends with. */
  function TrailingSpaces(s: string): (n: nat)
    ensures n <= |s| && (n < |s| ==> !IsSpace(s[|s| - 1 - n]))
    ensures AllSpace(s[|s| - n..])
  {
    if s == [] || !IsSpace(s[|s| - 1]) then 0
    else
      var m := TrailingSpaces(s[..|s| - 1]);
      assert forall k | |s| - 1 - m <= k < |s| - 1 :: s[k] == s[..|s| - 1][|s| - 1 - m..][k - (|s| - 1 - m)];
      1 + m
  }

  /** `s.trimStart()`. */
  function TrimStart(s: string): (r: string)
    ensures |r| <= |s| && r == s[|s| - |r|..]
    ensures AllSpace(s[..|s| - |r|])
    ensures r == [] || !IsSpace(r[0])
  {
    s[LeadingSpaces(s)..]
  }

  /** `s.trimEnd()`. */
  function TrimEnd(s: string): (r: string)
    ensures |r| <= |s| && r == s[..|r|]
    ensures AllSpace(s[|r|..])
    ensures r == [] || !IsSpace(r[|r| - 1])
  {
    s[..|s| - TrailingSpaces(s)]
  }

  /** `s.trim()`: `s` without its leading and trailing space characters. */
  function Trim(s: string): (r: string)
    ensures Trimmed(r)
    ensures |r| <= |s|
    ensures r == [] <==> AllSpace(s)
  {
    var t := TrimStart(s);
    var r := TrimEnd(t);
    assert r == [] ==> AllSpace(s) by {
      if r == [] {
        forall i | 0 <= i < |s| ensures IsSpace(s[i]) {
          assert s[i] == s[..|s|][i];
        }
      }
    }
    assert r != [] ==> !IsSpace(r[0]) by {
      if r != [] { assert r[0] == t[0]; }
    }
    r
  }

  /** A string already trimmed is its own trimming. */
  lemma TrimOfTrimmed(s: string)
    requires Trimmed(s)
    ensures Trim(s) == s
  {
  }

  /** Leading and trailing spaces around a trimmed string are exactly what `trim` removes. */
  lemma {:induction false} TrimAround(a: string, x: string, b: string)
    requires AllSpace(a) && AllSpace(b) && Trimmed(x) && x != []
    ensures Trim(a + x + b) == x
  {
    var s := a + x + b;
    assert s == a + (x + b);
    TrimStartAround(a, x + b);
    TrimEndAround(x, b);
    TrimBothEnds(s, x + b, x);
  }

  /** Trimming is trimming the start and then the end. */
  lemma TrimBothEnds(s: string, t: string, r: string)
    requires TrimStart(s) == t && TrimEnd(t) == r
    ensures Trim(s) == r
  {
  }

  lemma {:induction false} TrimStartAround(a: string, y: string)
    requires AllSpace(a) && y != [] && !IsSpace(y[0])
    ensures TrimStart(a + y) == y
    decreases |a|
  {
    if a == [] {
      assert a + y == y;
    } else {
      var s := a + y;
      assert s[0] == a[0] && IsSpace(a[0]);
      assert s[1..] == a[1..] + y;
      assert AllSpace(a[1..]) by {
        forall i | 0 <= i < |a| - 1 ensures IsSpace(a[1..][i]) { assert a[1..][i] == a[i + 1]; }
      }
      TrimStartAround(a[1..], y);
    }
  }

  lemma {:induction false} TrimEndAround(y: string, b: string)
    requires AllSpace(b) && y != [] && !IsSpace(y[|y| - 1])
    ensures TrimEnd(y + b) == y
    decreases |b|
  {
    if b == [] {
      assert y + b == y;
    } else {
      assert (y + b)[..|y + b| - 1] == y + b[..|b| - 1];
      TrimEndAround(y, b[..|b| - 1]);
    }
  }

  /** ASCII `toLowerCase` of one character. */
  function LowerChar(c: char): char
  {
    if 'A' <= c <= 'Z' then (c as int + 32) as char else c
  }

  /** `s.toLowerCase()`, for the ASCII letters. */
  function ToLower(s: string): (r: string)
    ensures |r| == |s|
    ensures forall i | 0 <= i < |s| :: r[i] == LowerChar(s[i])
  {
    if s == [] then [] else [LowerChar(s[0])] + ToLower(s[1..])
  }

  /** `sub` occurs in `s` at index `i`. */
  predicate OccursAt(s: string, sub: string, i: nat)
  {
    i + |sub| <= |s| && s[i..i + |sub|] == sub
  }

  /** `s.includes(sub)`. */
  predicate Contains(s: string, sub: string)
  {
    exists i: nat | i + |sub| <= |s| :: OccursAt(s, sub, i)
  }

  /** `w` occurs in `s` at index `i`, ignoring the case of ASCII letters (a `/w/i` test at `i`). */
  predicate OccursAtIgnoringCase(s: string, w: string, i: nat)
  {
    i + |w| <= |s| && forall k | 0 <= k < |w| :: LowerChar(s[i + k]) == LowerChar(w[k])
  }

  /** Only letters change case, so a space matched ignoring case is matched exactly. */
  lemma SpaceIgnoringCase(s: string, w: string, i: nat)
    requires OccursAtIgnoringCase(s, w, i)
    ensures forall k | i <= k < i + |w| :: IsSpace(s[k]) ==> IsSpace(w[k - i])
  {
    forall k | i <= k < i + |w| && IsSpace(s[k]) ensures IsSpace(w[k - i]) {
      assert LowerChar(s[k]) == s[k];
      assert LowerChar(s[i + (k - i)]) == LowerChar(w[k - i]);
    }
  }

  /** `s.substring(0, n)`: the first `n` characters, or all of `s` when it is shorter. */
  function Prefix(s: string, n: nat): (r: string)
    ensures |r| == if |s| < n then |s| else n
    ensures r == s[..|r|]
  {
    if |s| <= n then s else s[..n]
  }

  /** The plural suffix of a count in the messages: empty exactly when the count is 1. */
  function PluralS(n: int): (r: string)
    ensures r == "" <==> n == 1
    ensures r != "" ==> r == "s"
  {
    if n != 1 then "s" else ""
  }

  // ---------------------------------------------------------------------------
  // Decimal rendering of numbers, as template literals print them.

  function DigitChar(d: nat): char
    requires d < 10
  {
    ('0' as int + d) as char
  }

  predicate IsDigit(c: char)
  {
    '0' <= c <= '9'
  }

  /** The decimal notation of `n`, without leading zeros. */
  function NatToString(n: nat): (r: string)
    ensures r != []
    ensures forall i | 0 <= i < |r| :: IsDigit(r[i])
    ensures |r| > 1 ==> r[0] != '0'
  {
    if n < 10 then [DigitChar(n)] else NatToString(n / 10) + [DigitChar(n % 10)]
  }

  /** The decimal notation of `n`, with a leading '-' when it is negative. */
  function IntToString(n: int): (r: string)
    ensures r != []
    ensures n < 0 <==> r[0] == '-'
  {
    if n < 0 then "-" + NatToString(-n) else NatToString(n)
  }

  /** The number a string of decimal digits denotes. */
  function DigitsValue(s: string): nat
    requires forall i | 0 <= i < |s| :: IsDigit(s[i])
  {
    if s == [] then 0
    else
      assert IsDigit(s[|s| - 1]);
      DigitsValue(s[..|s| - 1]) * 10 + (s[|s| - 1] as int - '0' as int)
  }

  /** Reading back the decimal notation of `n` gives `n`. */
  lemma {:induction false} NatToStringRoundTrip(n: nat)
    ensures DigitsValue(NatToString(n)) == n
  {
    if n >= 10 {
      var r := NatToString(n);
      assert r[..|r| - 1] == NatToString(n / 10);
      NatToStringRoundTrip(n / 10);
    }
  }

  /** Different numbers have different notations. */
  lemma NatToStringInjective(m: nat, n: nat)
    requires NatToString(m) == NatToString(n)
    ensures m == n
  {
    NatToStringRoundTrip(m);
    NatToStringRoundTrip(n);
  }

  // ---------------------------------------------------------------------------
  // split and join

  /** `s.split(d)` for a one-character separator `d`. */
  function Split(s: string, d: char): (r: seq<string>)
    ensures |r| >= 1
    ensures forall i | 0 <= i < |r| :: d !in r[i]
  {
    if s == [] then [""]
    else if s[0] == d then [""] + Split(s[1..], d)
    else
      var rest := Split(s[1..], d);
      [[s[0]] + rest[0]] + rest[1..]
  }

  /** `parts.join(sep)`. */
  function Join(parts: seq<string>, sep: string): string
  {
    if parts == [] then ""
    else if |parts| == 1 then parts[0]
    else parts[0] + sep + Join(parts[1..], sep)
  }

  /** Splitting a string at the first separator it has. */
  lemma {:induction false} SplitConcat(a: string, d: char, b: string)
    requires d !in a
    ensures Split(a + [d] + b, d) == [a] + Split(b, d)
    decreases |a|
  {
    if a == [] {
      assert a + [d] + b == [d] + b;
      assert ([d] + b)[1..] == b;
    } else {
      assert (a + [d] + b)[1..] == a[1..] + [d] + b;
      SplitConcat(a[1..], d, b);
      assert [a[0]] + a[1..] == a;
    }
  }

  lemma {:induction false} SplitNoSeparator(a: string, d: char)
    requires d !in a
    ensures Split(a, d) == [a]
    decreases |a|
  {
    if a != [] {
      SplitNoSeparator(a[1..], d);
      assert [a[0]] + a[1..] == a;
    }
  }

  /** Joining on a separator none of the parts contains, then splitting on it, gives the parts back. */
  lemma {:induction false} SplitJoinRoundTrip(parts: seq<string>, d: char)
    requires |parts| >= 1
    requires forall i | 0 <= i < |parts| :: d !in parts[i]
    ensures Split(Join(parts, [d]), d) == parts
    decreases |parts|
  {
    if |parts| == 1 {
      SplitNoSeparator(parts[0], d);
    } else {
      SplitJoinRoundTrip(parts[1..], d);
      SplitConcat(parts[0], d, Join(parts[1..], [d]));
      assert [parts[0]] + parts[1..] == parts;
    }
  }
}
