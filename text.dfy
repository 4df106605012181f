/**
 * The string built-ins of Python that the model relies on: `str.isspace`,
 * `str.strip`, `str.startswith`, `str.endswith`, `str(int)`, `sep.join(...)`
 * and `str.split("\n")`, written over `seq<char>`.
 */
module Text {

  /** Python's `str.isspace` for a single character (Unicode whitespace). */
  predicate IsSpace(c: char) {
    || c == ' '
    || ('\t' <= c <= '\r')
    || ('\U{1c}' <= c <= '\U{1f}')
    || c == '\U{85}'
    || c == '\U{a0}'
    || c == '\U{1680}'
    || ('\U{2000}' <= c <= '\U{200a}')
    || c == '\U{2028}'
    || c == '\U{2029}'
    || c == '\U{202f}'
    || c == '\U{205f}'
    || c == '\U{3000}'
  }

  /** Every character of `s` is whitespace (the empty string included). */
  predicate IsBlank(s: string) {
    forall i | 0 <= i < |s| :: IsSpace(s[i])
  }

  /** `s` neither starts nor ends with whitespace. */
  predicate IsTrimmed(s: string) {
    s != [] ==> !IsSpace(s[0]) && !IsSpace(s[|s| - 1])
  }

  /** Drops the leading whitespace of `s`. */
  function TrimStart(s: string): (r: string)
    ensures |r| <= |s| && r == s[|s| - |r|..]
    ensures r != [] ==> !IsSpace(r[0])
    ensures forall i | 0 <= i < |s| - |r| :: IsSpace(s[i])
  {
    if s != [] && IsSpace(s[0]) then TrimStart(s[1..]) else s
  }

  /** Drops the trailing whitespace of `s`. */
  function TrimEnd(s: string): (r: string)
    ensures |r| <= |s| && r == s[..|r|]
    ensures r != [] ==> !IsSpace(r[|r| - 1])
    ensures forall i | |r| <= i < |s| :: IsSpace(s[i])
  {
    if s != [] && IsSpace(s[|s| - 1]) then TrimEnd(s[..|s| - 1]) else s
  }

  /** Number of whitespace characters that `Strip` removes from the front. */
  function LeadingSpace(s: string): (n: nat)
    ensures n <= |s|
  {
    |s| - |TrimStart(s)|
  }

  /**
   * Python's `str.strip()`: the part of `s` between its leading and its
   * trailing whitespace.
   */
  function Strip(s: string): (r: string)
    ensures IsTrimmed(r)
    ensures LeadingSpace(s) + |r| <= |s|
    ensures r == s[LeadingSpace(s)..LeadingSpace(s) + |r|]
  {
    var t := TrimStart(s);
    var r := TrimEnd(t);
    assert r != [] ==> r[0] == t[0];
    r
  }

  /** What `Strip` removes is whitespace, at both ends. */
  lemma StripRemovesSpace(s: string)
    ensures forall i | 0 <= i < LeadingSpace(s) :: IsSpace(s[i])
    ensures forall i | LeadingSpace(s) + |Strip(s)| <= i < |s| :: IsSpace(s[i])
  {
    var t := TrimStart(s);
    var k := LeadingSpace(s);
    assert t == s[k..];
    assert forall i | k + |Strip(s)| <= i < |s| :: s[i] == t[i - k];
  }

  /** Stripping removes everything exactly when the string is blank. */
  lemma StripEmptyIffBlank(s: string)
    ensures Strip(s) == [] <==> IsBlank(s)
  {
    var k := LeadingSpace(s);
    StripRemovesSpace(s);
    if Strip(s) == [] {
      forall i | 0 <= i < |s| ensures IsSpace(s[i]) {
        if i >= k { assert k + |Strip(s)| <= i; }
      }
    } else {
      assert !IsSpace(s[k]) by { assert Strip(s)[0] == s[k]; }
    }
  }

  /** A string that is already trimmed is its own strip. */
  lemma {:induction false} StripTrimmed(s: string)
    requires IsTrimmed(s)
    ensures Strip(s) == s
  {
    assert TrimStart(s) == s;
    assert TrimEnd(s) == s;
  }

  /** `str.strip` is idempotent. */
  lemma StripIdempotent(s: string)
    ensures Strip(Strip(s)) == Strip(s)
  {
    StripTrimmed(Strip(s));
  }

  /** Python's `s.startswith(p)`. */
  predicate StartsWith(s: string, p: string) {
    |p| <= |s| && s[..|p|] == p
  }

  /** Python's `s.endswith(p)`. */
  predicate EndsWith(s: string, p: string) {
    |p| <= |s| && s[|s| - |p|..] == p
  }

  predicate IsDigit(c: char) {
    '0' <= c <= '9'
  }

  function DigitChar(d: nat): (c: char)
    requires d < 10
    ensures IsDigit(c)
  {
    "0123456789"[d]
  }

  function DigitValue(c: char): (d: nat)
    requires IsDigit(c)
    ensures d < 10
  {
    (c as int - '0' as int) as nat
  }

  /** Python's `str(n)` for a non-negative integer: its decimal digits. */
  function NatToString(n: nat): (r: string)
    ensures r != []
    ensures forall i | 0 <= i < |r| :: IsDigit(r[i])
  {
    if n < 10 then [DigitChar(n)] else NatToString(n / 10) + [DigitChar(n % 10)]
  }

  /** Reads a string of decimal digits back as a number (`int(s)`). */
  function ParseDecimal(s: string): nat
    requires forall i | 0 <= i < |s| :: IsDigit(s[i])
  {
    if s == [] then 0 else ParseDecimal(s[..|s| - 1]) * 10 + DigitValue(s[|s| - 1])
  }

  /** `int(str(n)) == n`: the decimal rendering loses nothing. */
  lemma {:induction false} NatToStringRoundTrip(n: nat)
    ensures ParseDecimal(NatToString(n)) == n
  {
    if n >= 10 {
      var s := NatToString(n);
      assert s[..|s| - 1] == NatToString(n / 10);
      NatToStringRoundTrip(n / 10);
    }
  }

  /** Different numbers render differently. */
  lemma NatToStringInjective(m: nat, n: nat)
    ensures NatToString(m) == NatToString(n) <==> m == n
  {
    NatToStringRoundTrip(m);
    NatToStringRoundTrip(n);
  }

  /** A common prefix can be dropped from both sides of an equation. */
  lemma PrefixCancel(p: string, x: string, y: string)
    requires p + x == p + y
    ensures x == y
  {
    assert x == (p + x)[|p|..];
    assert y == (p + y)[|p|..];
  }

  /** The first character after `x` in `x + y` is the first of `y`. */
  lemma FirstAfter(x: string, y: string)
    ensures y != [] ==> (x + y)[|x|] == y[0]
  {
  }

  /**
   * A run of digits followed by a non-digit is told apart from what follows
   * it: `a1 + r1 == a2 + r2` splits the same way.
   */
  lemma DigitPrefixUnique(a1: string, r1: string, a2: string, r2: string)
    requires forall i | 0 <= i < |a1| :: IsDigit(a1[i])
    requires forall i | 0 <= i < |a2| :: IsDigit(a2[i])
    requires r1 != [] && !IsDigit(r1[0]) && r2 != [] && !IsDigit(r2[0])
    requires a1 + r1 == a2 + r2
    ensures a1 == a2 && r1 == r2
  {
    if |a1| < |a2| {
      FirstAfter(a1, r1);
      assert false;
    } else if |a2| < |a1| {
      FirstAfter(a2, r2);
      assert false;
    } else {
      assert a1 == (a1 + r1)[..|a1|];
      assert a2 == (a2 + r2)[..|a2|];
      assert r1 == (a1 + r1)[|a1|..];
      assert r2 == (a2 + r2)[|a2|..];
    }
  }

  /** Python's `sep.join(parts)`. */
  function Join(parts: seq<string>, sep: string): string {
    if |parts| == 0 then ""
    else if |parts| == 1 then parts[0]
    else parts[0] + sep + Join(parts[1..], sep)
  }

  /** Python's `s.split("\n")`: the newline-free pieces of `s`, in order. */
  function Lines(s: string): (r: seq<string>)
    ensures r != []
    ensures forall i | 0 <= i < |r| :: '\n' !in r[i]
    decreases |s|
  {
    if '\n' !in s then [s]
    else
      var i := IndexOf(s, '\n');
      [s[..i]] + Lines(s[i + 1..])
  }

  /** The position of the first `c` in `s`. */
  function IndexOf(s: string, c: char): (i: nat)
    requires c in s
    ensures i < |s| && s[i] == c && c !in s[..i]
  {
    if s[0] == c then 0
    else
      assert c in s[1..] by { var k :| 0 <= k < |s| && s[k] == c; assert s[1..][k - 1] == c; }
      1 + IndexOf(s[1..], c)
  }

  /** Splitting `a + "\n" + rest` at newlines yields `a` and then the lines of `rest`. */
  lemma LinesCons(a: string, rest: string)
    requires '\n' !in a
    ensures Lines(a + "\n" + rest) == [a] + Lines(rest)
  {
    var s := a + "\n" + rest;
    assert s[|a|] == '\n';
    var i := IndexOf(s, '\n');
    assert i == |a|;
    assert s[..i] == a;
    assert s[i + 1..] == rest;
  }
}
