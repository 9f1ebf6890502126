/** Decimal rendering of natural numbers, as Python's `str(int)` (unpadded) and
    the `%0Nd` / isoformat fields (zero-filled to a minimum width) produce it,
    together with the value a digit string denotes, which inverts both. */
module Decimal {
  import opened Strings

  predicate IsDigit(c: char) {
    '0' <= c <= '9'
  }

  predicate AllDigits(s: string) {
    forall i :: 0 <= i < |s| ==> IsDigit(s[i])
  }

  /** A digit string with no superfluous leading zero: "0", "7", "2020", never "07". */
  predicate Canonical(s: string) {
    |s| >= 1 && AllDigits(s) && (|s| > 1 ==> s[0] != '0')
  }

  function DigitChar(d: nat): (c: char)
    requires d < 10
    ensures IsDigit(c)
  {
    ('0' as int + d) as char
  }

  function DigitValue(c: char): (d: nat)
    requires IsDigit(c)
    ensures d < 10 && DigitChar(d) == c
  {
    c as int - '0' as int
  }

  function Pow10(k: nat): (p: nat)
    ensures p >= 1
  {
    if k == 0 then 1 else 10 * Pow10(k - 1)
  }

  /** `str(n)`: the decimal numeral of n, most significant digit first. */
  function NatToString(n: nat): string
    decreases n
  {
    if n < 10 then [DigitChar(n)] else NatToString(n / 10) + [DigitChar(n % 10)]
  }

  /** `str(n)` is the shortest numeral: digits only, and no leading zero. */
  lemma {:induction false} NatToStringCanonical(n: nat)
    ensures Canonical(NatToString(n))
    decreases n
  {
    if n >= 10 {
      NatToStringCanonical(n / 10);
      var s := NatToString(n);
      assert s[..|s| - 1] == NatToString(n / 10);
      assert forall i :: 0 <= i < |s| - 1 ==> s[i] == s[..|s| - 1][i];
    }
  }

  /** The number a string of decimal digits denotes (the empty string denotes 0). */
  function DecimalValue(s: string): (n: nat)
    requires AllDigits(s)
  {
    if s == [] then 0 else DecimalValue(s[..|s| - 1]) * 10 + DigitValue(s[|s| - 1])
  }

  /** Reading back what `str` wrote gives the number again. */
  lemma {:induction false} DecimalRoundTrip(n: nat)
    ensures Canonical(NatToString(n)) && DecimalValue(NatToString(n)) == n
    decreases n
  {
    NatToStringCanonical(n);
    if n >= 10 {
      var s := NatToString(n);
      assert s[..|s| - 1] == NatToString(n / 10);
      DecimalRoundTrip(n / 10);
    }
  }

  lemma {:induction false} ZeroValueAllZeros(s: string)
    requires AllDigits(s) && DecimalValue(s) == 0
    ensures forall i :: 0 <= i < |s| ==> s[i] == '0'
  {
    if s != [] {
      ZeroValueAllZeros(s[..|s| - 1]);
      assert forall i :: 0 <= i < |s| - 1 ==> s[i] == s[..|s| - 1][i];
    }
  }

  /** The converse: every canonical numeral is `str` of its value, so `str` is a
      bijection between naturals and canonical numerals. */
  lemma {:induction false} CanonicalRoundTrip(s: string)
    requires Canonical(s)
    ensures NatToString(DecimalValue(s)) == s
  {
    if |s| > 1 {
      var p, c := s[..|s| - 1], s[|s| - 1];
      assert p[0] == s[0];
      CanonicalRoundTrip(p);
      var v := DecimalValue(p);
      if v == 0 {
        ZeroValueAllZeros(p);
        assert false;
      }
      var n := DecimalValue(s);
      assert n == v * 10 + DigitValue(c);
      assert n / 10 == v && n % 10 == DigitValue(c);
      assert s == p + [c];
    }
  }

  /** A number below 10^width needs at most `width` digits. */
  lemma {:induction false} NatToStringLength(n: nat, width: nat)
    ensures width >= 1 && n < Pow10(width) ==> |NatToString(n)| <= width
  {
    if width >= 1 && n < Pow10(width) && n >= 10 {
      assert Pow10(1) == 10;
      assert width >= 2;
      assert n / 10 < Pow10(width - 1);
      NatToStringLength(n / 10, width - 1);
    }
  }

  lemma {:induction false} LeadingZerosValue(k: nat, s: string)
    requires AllDigits(s)
    ensures AllDigits(Repeat('0', k) + s) && DecimalValue(Repeat('0', k) + s) == DecimalValue(s)
  {
    var z := Repeat('0', k) + s;
    if s == [] {
      assert z == Repeat('0', k);
      if k > 0 {
        assert z[..k - 1] == Repeat('0', k - 1);
        LeadingZerosValue(k - 1, []);
        assert Repeat('0', k - 1) + [] == Repeat('0', k - 1);
      }
    } else {
      var p := s[..|s| - 1];
      assert z[..|z| - 1] == Repeat('0', k) + p;
      LeadingZerosValue(k, p);
    }
  }

  /** n in decimal, left-filled with '0' to at least `width` digits (Python's
      `%0{width}d`). */
  function ZeroPad(n: nat, width: nat): string {
    var d := NatToString(n);
    Repeat('0', if |d| < width then width - |d| else 0) + d
  }

  /** A zero-filled field is all digits and still denotes n; nothing is cut off,
      and it is exactly `width` long when n fits in that many digits. */
  lemma ZeroPadValue(n: nat, width: nat)
    ensures var s := ZeroPad(n, width);
      && AllDigits(s) && DecimalValue(s) == n
      && |s| == (if |NatToString(n)| < width then width else |NatToString(n)|)
      && (width >= 1 && n < Pow10(width) ==> |s| == width)
  {
    var d := NatToString(n);
    DecimalRoundTrip(n);
    LeadingZerosValue(if |d| < width then width - |d| else 0, d);
    NatToStringLength(n, width);
  }

  /** A zero-filled field holds digits only, so never a line break. */
  lemma ZeroPadHasNoNewline(n: nat, width: nat)
    ensures '\n' !in ZeroPad(n, width)
  {
    ZeroPadValue(n, width);
  }
}
