/**
 * String operations shared by the PHP, Python and TypeScript code:
 * ASCII lower-casing (`strtolower`, `toLowerCase`), substring search
 * (`strpos(...) !== false`, `includes`) and decimal rendering of integers
 * (`${n}`, `str(n)`, `toString()`).
 */
module Strings {

  /** The ASCII case mapping: 'A'..'Z' go to 'a'..'z', everything else is kept. */
  function LowerChar(c: char): char {
    if 'A' <= c <= 'Z' then (c as int + 32) as char else c
  }

  /** `strtolower` / `toLowerCase`, character by character. */
  function Lower(s: string): (r: string)
    ensures |r| == |s|
    ensures forall i :: 0 <= i < |s| ==> r[i] == LowerChar(s[i])
    ensures forall i :: 0 <= i < |r| ==> !('A' <= r[i] <= 'Z')
  {
    seq(|s|, i requires 0 <= i < |s| => LowerChar(s[i]))
  }

  /** Lower-casing twice is lower-casing once. */
  lemma LowerIdempotent(s: string)
    ensures Lower(Lower(s)) == Lower(s)
  {
  }

  /** `p` occurs in `s` starting at index `i`. */
  predicate OccursAt(s: string, p: string, i: int) {
    0 <= i && i + |p| <= |s| && s[i..i + |p|] == p
  }

  /** Substring test, written as a scan from the left. */
  predicate Contains(s: string, p: string)
    decreases |s|
  {
    p <= s || (s != [] && Contains(s[1..], p))
  }

  /** The scan finds `p` exactly when `p` occurs at some position of `s`. */
  lemma {:induction false} ContainsIff(s: string, p: string)
    ensures Contains(s, p) <==> exists i :: OccursAt(s, p, i)
    decreases |s|
  {
    if p <= s {
      assert OccursAt(s, p, 0);
    } else if s == [] {
    } else {
      ContainsIff(s[1..], p);
      if exists i :: OccursAt(s[1..], p, i) {
        var i :| OccursAt(s[1..], p, i);
        assert s[i + 1..i + 1 + |p|] == s[1..][i..i + |p|];
        assert OccursAt(s, p, i + 1);
      }
      if exists i :: OccursAt(s, p, i) {
        var i :| OccursAt(s, p, i);
        assert i != 0;
        assert s[1..][i - 1..i - 1 + |p|] == s[i..i + |p|];
        assert OccursAt(s[1..], p, i - 1);
      }
    }
  }

  /** Every character of a string found in `s` is a character of `s`. */
  lemma ContainsHasChars(s: string, p: string, c: char)
    requires Contains(s, p) && c in p
    ensures c in s
  {
    ContainsIff(s, p);
    var i :| OccursAt(s, p, i);
    var k :| 0 <= k < |p| && p[k] == c;
    assert s[i + k] == s[i..i + |p|][k];
  }

  /** A string with no upper-case letter is its own lower-case form. */
  lemma LowerOfLower(s: string)
    requires forall i :: 0 <= i < |s| ==> !('A' <= s[i] <= 'Z')
    ensures Lower(s) == s
  {
  }

  /** The empty string occurs in every string (so an empty search matches). */
  lemma ContainsEmpty(s: string)
    ensures Contains(s, "")
  {
  }

  /** A string contains itself wherever it sits inside a longer one. */
  lemma ContainsInfix(a: string, p: string, b: string)
    ensures Contains(a + p + b, p)
  {
    assert OccursAt(a + p + b, p, |a|) by {
      assert (a + p + b)[|a|..|a| + |p|] == p;
    }
    ContainsIff(a + p + b, p);
  }

  predicate IsDigit(c: char) {
    '0' <= c <= '9'
  }

  function DigitChar(d: nat): (c: char)
    requires d < 10
    ensures IsDigit(c)
  {
    ('0' as int + d) as char
  }

  /** Decimal digits of a natural number, without leading zeros. */
  function NatDecimal(n: nat): (r: string)
    ensures |r| >= 1
    ensures forall i :: 0 <= i < |r| ==> IsDigit(r[i])
    ensures n >= 10 ==> r[0] != '0'
    decreases n
  {
    if n < 10 then [DigitChar(n)] else NatDecimal(n / 10) + [DigitChar(n % 10)]
  }

  /** The number's usual text form: `String(n)` in JavaScript, `str(n)` in Python. */
  function Decimal(n: int): (r: string)
    ensures |r| >= 1
    ensures n >= 0 <==> IsDigit(r[0])
  {
    if n < 0 then "-" + NatDecimal(-n) else NatDecimal(n)
  }

  function DigitValue(c: char): (d: nat)
    requires IsDigit(c)
    ensures d < 10
  {
    c as int - '0' as int
  }

  /** The value of a string of decimal digits, most significant first. */
  function DigitsValue(s: string): nat
    requires forall i :: 0 <= i < |s| ==> IsDigit(s[i])
    decreases |s|
  {
    if s == [] then 0 else DigitsValue(s[..|s| - 1]) * 10 + DigitValue(s[|s| - 1])
  }

  /** Reading the digits back gives the number: the rendering loses nothing. */
  lemma {:induction false} NatDecimalRoundTrip(n: nat)
    ensures DigitsValue(NatDecimal(n)) == n
    decreases n
  {
    if n >= 10 {
      NatDecimalRoundTrip(n / 10);
      var r := NatDecimal(n);
      assert r[..|r| - 1] == NatDecimal(n / 10);
    }
  }

  /** Distinct numbers render differently. */
  lemma DecimalInjective(m: int, n: int)
    requires Decimal(m) == Decimal(n)
    ensures m == n
  {
    if m < 0 && n < 0 {
      NegativeDecimal(m);
      NegativeDecimal(n);
      NatDecimalInjective(-m, -n);
    } else if m >= 0 && n >= 0 {
      NatDecimalInjective(m, n);
    }
  }

  lemma NatDecimalInjective(a: nat, b: nat)
    requires NatDecimal(a) == NatDecimal(b)
    ensures a == b
  {
    NatDecimalRoundTrip(a);
    NatDecimalRoundTrip(b);
  }

  lemma NegativeDecimal(m: int)
    requires m < 0
    ensures Decimal(m)[1..] == NatDecimal(-m)
  {
    assert Decimal(m) == "-" + NatDecimal(-m);
  }

  /** JavaScript's `s.padStart(width, c)` for a one-character pad. */
  function PadStart(s: string, width: nat, c: char): (r: string)
    ensures |r| == if |s| >= width then |s| else width
    ensures r[|r| - |s|..] == s
    ensures forall i :: 0 <= i < |r| - |s| ==> r[i] == c
  {
    if |s| >= width then s else seq(width - |s|, _ => c) + s
  }

  /** A leading zero does not change the value of a digit string. */
  lemma {:induction false} LeadingZero(s: string)
    requires forall i :: 0 <= i < |s| ==> IsDigit(s[i])
    ensures DigitsValue("0" + s) == DigitsValue(s)
    decreases |s|
  {
    if s != [] {
      var t := "0" + s;
      assert t[..|t| - 1] == "0" + s[..|s| - 1];
      LeadingZero(s[..|s| - 1]);
    } else {
      assert ("0" + s)[..0] == [];
    }
  }
}
