/**
 * Decimal text of integers as Go's fmt package writes it (`%d`, `%02d`) and
 * reads it back (one `%d` verb of `fmt.Sscanf`).
 */
module Decimal {
  import opened Wrappers

  predicate IsDigit(c: char) {
    '0' <= c <= '9'
  }

  predicate AllDigits(s: string) {
    forall i :: 0 <= i < |s| ==> IsDigit(s[i])
  }

  /** True when `s` is empty or does not start with a digit: a number written before it ends there. */
  predicate EndsNumber(s: string) {
    s == [] || !IsDigit(s[0])
  }

  function DigitChar(d: nat): (c: char)
    requires d < 10
    ensures IsDigit(c)
  {
    (48 + d) as char
  }

  function DigitValue(c: char): (d: nat)
    requires IsDigit(c)
    ensures d < 10
  {
    (c as int) - 48
  }

  /** Value of a string of decimal digits, most significant first. */
  function DigitsValue(s: string): nat
    requires AllDigits(s)
    decreases |s|
  {
    if s == [] then 0 else 10 * DigitsValue(s[..|s| - 1]) + DigitValue(s[|s| - 1])
  }

  /** `%d` of a natural number: no sign and no leading zero. */
  function NatText(n: nat): (s: string)
    ensures |s| > 0 && AllDigits(s)
    ensures |s| > 1 ==> s[0] != '0'
    decreases n
  {
    if n < 10 then [DigitChar(n)] else NatText(n / 10) + [DigitChar(n % 10)]
  }

  /** `%d` of a signed integer. */
  function IntText(n: int): string {
    if n < 0 then "-" + NatText(-n) else NatText(n)
  }

  /** `%02d`: at least two characters, zero-padded after the sign (a negative value is never padded). */
  function Pad2(n: int): string {
    if 0 <= n < 10 then ['0', DigitChar(n)] else IntText(n)
  }

  /** Number of digits at the head of `s`. */
  function DigitRun(s: string): (k: nat)
    ensures k <= |s|
  {
    if s == [] || !IsDigit(s[0]) then 0 else 1 + DigitRun(s[1..])
  }

  /** The run is all digits, and what follows it does not start with one. */
  lemma {:induction false} DigitRunBounds(s: string)
    ensures AllDigits(s[..DigitRun(s)])
    ensures EndsNumber(s[DigitRun(s)..])
  {
    if s != [] && IsDigit(s[0]) {
      DigitRunBounds(s[1..]);
      var k := DigitRun(s[1..]);
      assert s[..k + 1] == [s[0]] + s[1..][..k];
      assert s[k + 1..] == s[1..][k..];
    }
  }

  /** The digits at the head of `s`: their value and how many there are, or None when there is none. */
  function ScanDigitRun(s: string): (r: Option<(nat, nat)>)
    ensures r.Some? ==> 0 < r.value.1 <= |s|
  {
    var k := DigitRun(s);
    DigitRunBounds(s);
    if k == 0 then None else Some((DigitsValue(s[..k]), k))
  }

  /**
   * One `%d` verb of `fmt.Sscanf`: an optional sign, then every digit that
   * follows. Gives the value and the number of characters consumed, or None
   * when no digit is found.
   */
  function ScanInt(s: string): (r: Option<(int, nat)>)
    ensures r.Some? ==> 0 < r.value.1 <= |s|
  {
    if |s| > 0 && (s[0] == '-' || s[0] == '+') then
      match ScanDigitRun(s[1..])
      case None => None
      case Some((magnitude, k)) =>
        var value: int := if s[0] == '-' then -(magnitude as int) else magnitude;
        Some((value, 1 + k))
    else
      match ScanDigitRun(s)
      case None => None
      case Some((magnitude, k)) => Some((magnitude as int, k))
  }



  lemma {:induction false} NatTextValue(n: nat)
    ensures DigitsValue(NatText(n)) == n
    decreases n
  {
    if n >= 10 {
      var s := NatText(n);
      assert s[..|s| - 1] == NatText(n / 10);
      NatTextValue(n / 10);
    }
  }

  lemma {:induction false} DigitRunOfDigits(d: string, rest: string)
    requires AllDigits(d) && EndsNumber(rest)
    ensures DigitRun(d + rest) == |d|
    decreases |d|
  {
    if d != [] {
      assert (d + rest)[1..] == d[1..] + rest;
      DigitRunOfDigits(d[1..], rest);
    }
  }

  /** A run of digits followed by a non-digit scans as its value and is consumed whole. */
  lemma ScanDigits(digits: string, rest: string)
    requires AllDigits(digits) && |digits| > 0 && EndsNumber(rest)
    ensures ScanInt(digits + rest) == Some((DigitsValue(digits), |digits|))
  {
    var s := digits + rest;
    DigitRunOfDigits(digits, rest);
    assert s[0] == digits[0];
    assert s[..|digits|] == digits;
    assert ScanDigitRun(s) == Some((DigitsValue(digits), |digits|));
  }

  /** Scanning the `%d` text of a natural number gives it back and stops right after it. */
  lemma ScanNatText(n: nat, rest: string)
    requires EndsNumber(rest)
    ensures ScanInt(NatText(n) + rest) == Some((n, |NatText(n)|))
  {
    ScanDigits(NatText(n), rest);
    NatTextValue(n);
  }

  /** The same for `%d` of a non-negative int. */
  lemma ScanIntText(n: int, rest: string)
    requires n >= 0 && EndsNumber(rest)
    ensures ScanInt(IntText(n) + rest) == Some((n, |IntText(n)|))
  {
    ScanNatText(n, rest);
  }

  /** Scanning the `%02d` text of a non-negative int gives it back and stops right after it. */
  lemma ScanPad2(n: int, rest: string)
    requires n >= 0 && EndsNumber(rest)
    ensures ScanInt(Pad2(n) + rest) == Some((n, |Pad2(n)|))
  {
    if n < 10 {
      var digits := Pad2(n);
      ScanDigits(digits, rest);
      assert digits[..1] == "0";
      assert DigitsValue(digits[..1]) == 0;
      assert DigitsValue(digits) == DigitValue(digits[1]) == n;
    } else {
      ScanNatText(n, rest);
    }
  }
}
