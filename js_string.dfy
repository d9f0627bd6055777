/**
 * The JavaScript string built-ins the core relies on: `trim`, `startsWith`,
 * `endsWith`, `split(sep)[0]`, `split(sep)[1]` and the decimal rendering of a
 * non-negative integer inside a template literal.
 */
module JsString {
  import opened Wrappers

  /** The white space and line terminators that `String.prototype.trim` removes. */
  predicate IsSpace(c: char) {
    || c == ' ' || c == '\t' || c == '\n' || c == '\r'
    || c == '\U{000B}' || c == '\U{000C}' || c == '\U{00A0}' || c == '\U{FEFF}'
    || c == '\U{1680}' || ('\U{2000}' <= c <= '\U{200A}')
    || c == '\U{2028}' || c == '\U{2029}' || c == '\U{202F}' || c == '\U{205F}'
    || c == '\U{3000}'
  }

  /** How many white-space characters `s` starts with. */
  function LeadingSpaces(s: string): (n: nat)
    ensures n <= |s|
    ensures forall i :: 0 <= i < n ==> IsSpace(s[i])
    ensures n < |s| ==> !IsSpace(s[n])
  {
    if s != [] && IsSpace(s[0]) then 1 + LeadingSpaces(s[1..]) else 0
  }

  /** Where the trailing white space of `s` begins. */
  function TrailingStart(s: string): (n: nat)
    ensures n <= |s|
    ensures forall i :: n <= i < |s| ==> IsSpace(s[i])
    ensures 0 < n ==> !IsSpace(s[n - 1])
  {
    if s != [] && IsSpace(s[|s| - 1]) then TrailingStart(s[..|s| - 1]) else |s|
  }

  /** `s.trim()`: the characters from the first to the last that is not white space. */
  function Trim(s: string): (r: string)
    ensures |r| <= |s|
    ensures r == [] || (!IsSpace(r[0]) && !IsSpace(r[|r| - 1]))
    ensures r == [] <==> forall i :: 0 <= i < |s| ==> IsSpace(s[i])
  {
    var lo := LeadingSpaces(s);
    var rest := s[lo..];
    var hi := TrailingStart(rest);
    assert forall i :: lo <= i < |s| ==> s[i] == rest[i - lo];
    s[lo..lo + hi]
  }

  /** Surrounding white space is exactly what trim removes: padding a string
      that has no white space at either end gives that string back. */
  lemma TrimOfPadded(a: string, m: string, b: string)
    requires forall i :: 0 <= i < |a| ==> IsSpace(a[i])
    requires forall i :: 0 <= i < |b| ==> IsSpace(b[i])
    requires m != [] && !IsSpace(m[0]) && !IsSpace(m[|m| - 1])
    ensures Trim(a + m + b) == m
  {
    var s := a + m + b;
    assert s == a + (m + b);
    LeadingSpacesOfPadded(a, m + b);
    assert s[|a|..] == m + b;
    TrailingStartOfPadded(m, b);
    assert s[|a|..|a| + |m|] == m;
  }

  lemma {:induction false} LeadingSpacesOfPadded(a: string, rest: string)
    requires forall i :: 0 <= i < |a| ==> IsSpace(a[i])
    requires rest != [] && !IsSpace(rest[0])
    ensures LeadingSpaces(a + rest) == |a|
    decreases |a|
  {
    if a == [] {
      assert a + rest == rest;
    } else {
      assert (a + rest)[0] == a[0];
      assert (a + rest)[1..] == a[1..] + rest;
      LeadingSpacesOfPadded(a[1..], rest);
    }
  }

  lemma {:induction false} TrailingStartOfPadded(rest: string, b: string)
    requires forall i :: 0 <= i < |b| ==> IsSpace(b[i])
    requires rest != [] && !IsSpace(rest[|rest| - 1])
    ensures TrailingStart(rest + b) == |rest|
    decreases |b|
  {
    if b == [] {
      assert rest + b == rest;
    } else {
      var s := rest + b;
      assert s[|s| - 1] == b[|b| - 1];
      assert s[..|s| - 1] == rest + b[..|b| - 1];
      TrailingStartOfPadded(rest, b[..|b| - 1]);
    }
  }

  /** A string with no white space at either end is its own trim. */
  lemma TrimFixedPoint(s: string)
    requires s == [] || (!IsSpace(s[0]) && !IsSpace(s[|s| - 1]))
    ensures Trim(s) == s
  {
    if s != [] {
      TrimOfPadded([], s, []);
      assert [] + s + [] == s;
    }
  }

  /** Trimming twice is trimming once. */
  lemma TrimIdempotent(s: string)
    ensures Trim(Trim(s)) == Trim(s)
  {
    TrimFixedPoint(Trim(s));
  }

  /** `s.startsWith(p)`. */
  predicate StartsWith(s: string, p: string) {
    |p| <= |s| && s[..|p|] == p
  }

  /** `s.endsWith(p)`. */
  predicate EndsWith(s: string, p: string) {
    |p| <= |s| && s[|s| - |p|..] == p
  }

  /** `s.split(sep)[0]`: everything before the first `sep`, or all of `s`. */
  function Before(s: string, sep: char): (r: string)
    ensures |r| <= |s| && r == s[..|r|]
    ensures sep !in r
    ensures |r| < |s| ==> s[|r|] == sep
  {
    if s == [] || s[0] == sep then [] else [s[0]] + Before(s[1..], sep)
  }

  /** `s.split(sep)[1]`: the field between the first and the second `sep`
      (or the end), and `undefined` when `s` holds no `sep`. */
  function SecondField(s: string, sep: char): (r: Option<string>)
    ensures r.None? <==> sep !in s
    ensures r.Some? ==>
              var head := Before(s, sep);
              var n := |head| + 1 + |r.value|;
              n <= |s| && s[..n] == head + [sep] + r.value && sep !in r.value
              && (n < |s| ==> s[n] == sep)
  {
    var k := |Before(s, sep)|;
    if k == |s| then None
    else
      var rest := s[k + 1..];
      var field := Before(rest, sep);
      assert s[..k + 1 + |field|] == s[..k] + [sep] + rest[..|field|];
      Some(field)
  }

  /** The character of a decimal digit. */
  function DigitChar(d: nat): (c: char)
    requires d < 10
    ensures '0' <= c <= '9' && (c as int) - ('0' as int) == d
  {
    "0123456789"[d]
  }

  /** The decimal rendering of `n`, as a template literal `${n}` produces it. */
  function NatToString(n: nat): (s: string)
    ensures |s| >= 1
    ensures forall i :: 0 <= i < |s| ==> '0' <= s[i] <= '9'
    ensures |s| > 1 ==> s[0] != '0'
    decreases n
  {
    if n < 10 then [DigitChar(n)] else NatToString(n / 10) + [DigitChar(n % 10)]
  }

  /** The number a string of decimal digits denotes. */
  function DigitsValue(s: string): nat
    requires forall i :: 0 <= i < |s| ==> '0' <= s[i] <= '9'
  {
    if s == [] then 0
    else DigitsValue(s[..|s| - 1]) * 10 + ((s[|s| - 1] as int) - ('0' as int))
  }

  /** Reading back the rendering of `n` gives `n`: the rendering loses nothing. */
  lemma {:induction false} NatToStringRoundTrip(n: nat)
    ensures DigitsValue(NatToString(n)) == n
    decreases n
  {
    if n >= 10 {
      NatToStringRoundTrip(n / 10);
      var s := NatToString(n);
      assert s[..|s| - 1] == NatToString(n / 10);
    }
  }

  /** Different numbers render differently. */
  lemma NatToStringInjective(m: nat, n: nat)
    requires NatToString(m) == NatToString(n)
    ensures m == n
  {
    NatToStringRoundTrip(m);
    NatToStringRoundTrip(n);
  }
}
