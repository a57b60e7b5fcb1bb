/**
 * The string primitives the components rely on, restricted to ASCII:
 * `trim`, `toLowerCase`/`toUpperCase`, `includes`, `padStart`/`padEnd`,
 * `Number.prototype.toString()` on integers, and the character classes
 * `\s`, `\D` and `[A-Za-z]` of the regular expressions.
 */
module Text {

  /** `\s` restricted to ASCII: space, tab, line feed, vertical tab, form feed, carriage return. */
  predicate IsWhitespace(c: char) {
    c == ' ' || ('\t' <= c <= '\r')
  }

  predicate IsNotWhitespace(c: char) {
    !IsWhitespace(c)
  }

  /** `[A-Za-z]` */
  predicate IsAsciiLetter(c: char) {
    ('A' <= c <= 'Z') || ('a' <= c <= 'z')
  }

  /** `[0-9]`; `\D` is its complement. */
  predicate IsDigit(c: char) {
    '0' <= c <= '9'
  }

  function LowerChar(c: char): (r: char)
    ensures IsAsciiLetter(c) <==> IsAsciiLetter(r) && 'a' <= r
    ensures !('A' <= c <= 'Z') ==> r == c
  {
    if 'A' <= c <= 'Z' then (c as int + 32) as char else c
  }

  function UpperChar(c: char): (r: char)
    ensures IsAsciiLetter(c) <==> IsAsciiLetter(r) && r <= 'Z'
    ensures !('a' <= c <= 'z') ==> r == c
  {
    if 'a' <= c <= 'z' then (c as int - 32) as char else c
  }

  /** `s.toLowerCase()` */
  function Lower(s: string): (r: string)
    ensures |r| == |s| && forall i :: 0 <= i < |s| ==> r[i] == LowerChar(s[i])
  {
    seq(|s|, i requires 0 <= i < |s| => LowerChar(s[i]))
  }

  /** Length of the longest prefix of `s` whose characters all satisfy `p`. */
  function PrefixLen(s: string, p: char -> bool): (n: nat)
    ensures n <= |s|
    ensures forall i :: 0 <= i < n ==> p(s[i])
    ensures n < |s| ==> !p(s[n])
  {
    if s == [] || !p(s[0]) then 0 else 1 + PrefixLen(s[1..], p)
  }

  /** Length of the longest prefix of `s` none of whose characters satisfies `p`. */
  function GapLen(s: string, p: char -> bool): (n: nat)
    ensures n <= |s|
    ensures forall i :: 0 <= i < n ==> !p(s[i])
    ensures n < |s| ==> p(s[n])
  {
    if s == [] || p(s[0]) then 0 else 1 + GapLen(s[1..], p)
  }

  /** A maximal `p`-prefix ends where the first non-`p` character begins. */
  lemma {:induction false} PrefixLenAppend(x: string, y: string, p: char -> bool)
    requires forall i :: 0 <= i < |x| ==> p(x[i])
    requires y == [] || !p(y[0])
    ensures PrefixLen(x + y, p) == |x|
  {
    if x != [] {
      assert (x + y)[1..] == x[1..] + y;
      PrefixLenAppend(x[1..], y, p);
    }
  }

  /** A maximal non-`p` prefix ends where the first `p` character begins. */
  lemma {:induction false} GapLenAppend(x: string, y: string, p: char -> bool)
    requires forall i :: 0 <= i < |x| ==> !p(x[i])
    requires y == [] || p(y[0])
    ensures GapLen(x + y, p) == |x|
  {
    if x != [] {
      assert (x + y)[1..] == x[1..] + y;
      GapLenAppend(x[1..], y, p);
    }
  }

  /** `s.trimStart()` */
  function TrimStart(s: string): (r: string)
    ensures r == s[GapLen(s, IsNotWhitespace)..]
    ensures r == [] || !IsWhitespace(r[0])
  {
    s[GapLen(s, IsNotWhitespace)..]
  }

  /** `s.trimEnd()` */
  function TrimEnd(s: string): (r: string)
    ensures r <= s
    ensures r == [] || !IsWhitespace(r[|r| - 1])
    ensures forall i :: |r| <= i < |s| ==> IsWhitespace(s[i])
  {
    if s != [] && IsWhitespace(s[|s| - 1]) then TrimEnd(s[..|s| - 1]) else s
  }

  /** `s.trim()` */
  function Trim(s: string): (r: string)
    ensures r == [] || (!IsWhitespace(r[0]) && !IsWhitespace(r[|r| - 1]))
    ensures |r| <= |s|
    // `r` is the slice of `s` that starts after the leading whitespace ...
    ensures GapLen(s, IsNotWhitespace) + |r| <= |s|
    ensures r == s[GapLen(s, IsNotWhitespace)..GapLen(s, IsNotWhitespace) + |r|]
    // ... and only whitespace lies outside it.
    ensures forall i :: GapLen(s, IsNotWhitespace) + |r| <= i < |s| ==> IsWhitespace(s[i])
  {
    var t := TrimStart(s);
    var r := TrimEnd(t);
    var a := GapLen(s, IsNotWhitespace);
    assert forall i :: a + |r| <= i < |s| ==> s[i] == t[i - a];
    r
  }

  /** `s.includes(q)` */
  predicate Contains(s: string, q: string)
    decreases |s|
  {
    q <= s || (s != [] && Contains(s[1..], q))
  }

  function DigitChar(d: nat): (c: char)
    requires d < 10
    ensures IsDigit(c)
  {
    "0123456789"[d]
  }

  function DigitValue(c: char): (d: nat)
    requires IsDigit(c)
    ensures d < 10 && DigitChar(d) == c
  {
    (c as int - '0' as int) as nat
  }

  /** Decimal notation of a non-negative integer, as `n.toString()` prints it. */
  function NatToString(n: nat): (s: string)
    ensures s != [] && forall i :: 0 <= i < |s| ==> IsDigit(s[i])
    ensures n > 0 ==> s[0] != '0'
  {
    if n < 10 then [DigitChar(n)] else NatToString(n / 10) + [DigitChar(n % 10)]
  }

  /** `n.toString()` for an integral `n`. */
  function IntToString(n: int): (s: string)
    ensures s != []
    ensures n < 0 <==> s[0] == '-'
  {
    if n < 0 then "-" + NatToString(-n) else NatToString(n)
  }

  /** The number a string of decimal digits denotes (leading zeros allowed). */
  function DecimalValue(s: string): nat
    requires forall i :: 0 <= i < |s| ==> IsDigit(s[i])
  {
    if s == [] then 0 else 10 * DecimalValue(s[..|s| - 1]) + DigitValue(s[|s| - 1])
  }

  lemma {:induction false} DecimalValueOfNatToString(n: nat)
    ensures DecimalValue(NatToString(n)) == n
  {
    if n >= 10 {
      var s := NatToString(n);
      assert s[..|s| - 1] == NatToString(n / 10);
      DecimalValueOfNatToString(n / 10);
    }
  }

  /** Leading zeros do not change the value of a digit string. */
  lemma {:induction false} DecimalValueLeadingZeros(z: string, s: string)
    requires forall i :: 0 <= i < |z| ==> z[i] == '0'
    requires forall i :: 0 <= i < |s| ==> IsDigit(s[i])
    ensures forall i :: 0 <= i < |z + s| ==> IsDigit((z + s)[i])
    ensures DecimalValue(z + s) == DecimalValue(s)
  {
    if s == [] {
      assert z + s == z;
      if z != [] {
        assert z[..|z| - 1] + [] == z[..|z| - 1];
        DecimalValueLeadingZeros(z[..|z| - 1], []);
      }
    } else {
      assert (z + s)[..|z + s| - 1] == z + s[..|s| - 1];
      DecimalValueLeadingZeros(z, s[..|s| - 1]);
    }
  }

  /** `c.repeat(n)` */
  function Repeat(c: char, n: nat): (r: string)
    ensures |r| == n && forall i :: 0 <= i < n ==> r[i] == c
  {
    if n == 0 then "" else [c] + Repeat(c, n - 1)
  }

  /** `s.padStart(n, c)` with a one-character filler. */
  function PadStart(s: string, n: nat, c: char): (r: string)
    ensures |r| == if |s| >= n then |s| else n
    ensures r[|r| - |s|..] == s
    ensures forall i :: 0 <= i < |r| - |s| ==> r[i] == c
  {
    if |s| >= n then s else Repeat(c, n - |s|) + s
  }

  /** `s.padEnd(n, c)` with a one-character filler. */
  function PadEnd(s: string, n: nat, c: char): (r: string)
    ensures |r| == if |s| >= n then |s| else n
    ensures r[..|s|] == s
    ensures forall i :: |s| <= i < |r| ==> r[i] == c
  {
    if |s| >= n then s else s + Repeat(c, n - |s|)
  }
}
