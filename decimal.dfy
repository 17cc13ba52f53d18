/**
 * Decimal rendering of natural numbers, as Rust's `{}` formatting writes a
 * `u32` or `usize`: the digits without sign or leading zeros.
 */
module Decimal {
  predicate IsDigit(c: char) { '0' <= c <= '9' }

  function DigitChar(d: nat): (c: char)
    requires d < 10
    ensures IsDigit(c)
  {
    ['0', '1', '2', '3', '4', '5', '6', '7', '8', '9'][d]
  }

  function DigitValue(c: char): (d: nat)
    requires IsDigit(c)
    ensures d < 10
  {
    (c as int - '0' as int)
  }

  lemma DigitRoundTrip(d: nat)
    requires d < 10
    ensures DigitValue(DigitChar(d)) == d
  {
  }

  function NatStr(n: nat): (s: string)
    ensures |s| >= 1 && (forall k :: 0 <= k < |s| ==> IsDigit(s[k]))
    ensures n >= 10 <==> |s| >= 2
    decreases n
  {
    if n < 10 then [DigitChar(n)] else NatStr(n / 10) + [DigitChar(n % 10)]
  }

  /** Reads back a string of digits. */
  function ParseDigits(s: string): nat
    requires forall k :: 0 <= k < |s| ==> IsDigit(s[k])
  {
    if s == [] then 0 else 10 * ParseDigits(s[..|s| - 1]) + DigitValue(s[|s| - 1])
  }

  /** Rendering loses nothing: the digits read back as the number. */
  lemma {:induction false} NatStrRoundTrip(n: nat)
    ensures ParseDigits(NatStr(n)) == n
    decreases n
  {
    if n >= 10 {
      NatStrRoundTrip(n / 10);
      var s := NatStr(n);
      assert s[..|s| - 1] == NatStr(n / 10);
      DigitRoundTrip(n % 10);
    } else {
      DigitRoundTrip(n);
    }
  }

  /** Different numbers render differently. */
  lemma NatStrInjective(a: nat, b: nat)
    requires NatStr(a) == NatStr(b)
    ensures a == b
  {
    NatStrRoundTrip(a);
    NatStrRoundTrip(b);
  }
}
