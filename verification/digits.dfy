/** Digit strings as JavaScript's number formatting and `parseInt` see them:
    the value of a string of digits in a given radix, the longest run of digits
    at the front of a string, a natural number rendered by `toString()`, and
    `padStart(2, '0')`. */
module Digits {

  /** The digit value JavaScript gives `c` in any radix up to 36 (letters of
      either case count from 10); 36 for a character that is no digit at all. */
  function RawDigit(c: char): nat
  {
    if '0' <= c <= '9' then (c as int) - ('0' as int)
    else if 'a' <= c <= 'z' then (c as int) - ('a' as int) + 10
    else if 'A' <= c <= 'Z' then (c as int) - ('A' as int) + 10
    else 36
  }

  /** The value of `c` as a digit of base `radix`, or -1 when it is not one. */
  function DigitOf(c: char, radix: nat): (d: int)
    ensures -1 <= d < radix
    ensures radix == 10 ==> (0 <= d <==> '0' <= c <= '9')
  {
    if RawDigit(c) < radix then RawDigit(c) else -1
  }

  /** Every character of `s` is a digit of base `radix`. */
  predicate AllIn(s: string, radix: nat)
  {
    forall i :: 0 <= i < |s| ==> 0 <= DigitOf(s[i], radix)
  }

  /** The number the digits `s` denote in base `radix`, most significant
      first. It is meant for strings with `AllIn(s, radix)`; any other
      character counts as a zero digit. */
  function ValueIn(s: string, radix: nat): nat
  {
    if s == [] then 0
    else
      var d := DigitOf(s[|s| - 1], radix);
      ValueIn(s[..|s| - 1], radix) * radix + (if d < 0 then 0 else d)
  }

  /** The longest prefix of `s` made of digits of base `radix`: the part of
      its input that `parseInt` reads. */
  function LeadingIn(s: string, radix: nat): (p: string)
    ensures |p| <= |s| && p == s[..|p|]
    ensures AllIn(p, radix)
    ensures |p| < |s| ==> DigitOf(s[|p|], radix) < 0
  {
    if s != [] && 0 <= DigitOf(s[0], radix) then [s[0]] + LeadingIn(s[1..], radix) else []
  }

  /** The leading run of `p + rest` is `p` when `p` is all digits and `rest`
      does not start with one. */
  lemma {:induction false} LeadingStopsAt(p: string, rest: string, radix: nat)
    requires AllIn(p, radix)
    requires rest == [] || DigitOf(rest[0], radix) < 0
    ensures LeadingIn(p + rest, radix) == p
  {
    if p != [] {
      assert 0 <= DigitOf(p[0], radix);
      assert AllIn(p[1..], radix) by {
        forall i | 0 <= i < |p[1..]| ensures 0 <= DigitOf(p[1..][i], radix) {
          assert p[1..][i] == p[i + 1];
        }
      }
      assert (p + rest)[1..] == p[1..] + rest;
      LeadingStopsAt(p[1..], rest, radix);
      assert [p[0]] + p[1..] == p;
    } else {
      assert p + rest == rest;
    }
  }

  /** Zeros in front of a digit string do not change its value. */
  lemma {:induction false} LeadingZero(s: string, radix: nat)
    requires 2 <= radix && AllIn(s, radix)
    ensures AllIn("0" + s, radix) && ValueIn("0" + s, radix) == ValueIn(s, radix)
  {
    var z := "0" + s;
    assert AllIn(z, radix) by {
      forall i | 0 <= i < |z| ensures 0 <= DigitOf(z[i], radix) {
        if i > 0 { assert z[i] == s[i - 1]; }
      }
    }
    if s != [] {
      var t := s[..|s| - 1];
      assert AllIn(t, radix) by {
        forall i | 0 <= i < |t| ensures 0 <= DigitOf(t[i], radix) { assert t[i] == s[i]; }
      }
      LeadingZero(t, radix);
      assert z[..|z| - 1] == "0" + t;
      assert z[|z| - 1] == s[|s| - 1];
    }
  }

  /** The character that writes the decimal digit `d`. */
  function DigitChar(d: nat): (c: char)
    requires d < 10
    ensures DigitOf(c, 10) == d
  {
    (('0' as int) + d) as char
  }

  /** `n.toString()` for a non-negative integer: its decimal digits, without
      leading zeros. */
  function Show(n: nat): (s: string)
    ensures 1 <= |s| && AllIn(s, 10) && ValueIn(s, 10) == n
    ensures n < 10 <==> |s| == 1
    ensures 10 <= n < 100 ==> |s| == 2
    ensures |s| > 1 ==> s[0] != '0'
  {
    if n < 10 then [DigitChar(n)]
    else
      var s := Show(n / 10) + [DigitChar(n % 10)];
      assert s[..|s| - 1] == Show(n / 10);
      s
  }

  /** `s.padStart(2, '0')` on a digit string: zeros in front up to length two. */
  function PadStart2(s: string): (r: string)
    requires AllIn(s, 10)
    ensures |r| == if |s| < 2 then 2 else |s|
    ensures r[|r| - |s|..] == s
    ensures AllIn(r, 10) && ValueIn(r, 10) == ValueIn(s, 10)
  {
    if |s| >= 2 then s
    else if |s| == 1 then LeadingZero(s, 10); "0" + s
    else LeadingZero(s, 10); LeadingZero("0", 10); "00"
  }
}
