/** Decimal rendering of natural numbers, as Go's time layout and integer
    formatting write them: minimal digits, or zero-padded to a fixed width. */
module Decimal {

  predicate IsDigit(c: char) {
    '0' <= c <= '9'
  }

  predicate AllDigits(s: string) {
    forall i :: 0 <= i < |s| ==> IsDigit(s[i])
  }

  function DigitChar(d: nat): (c: char)
    requires d < 10
    ensures IsDigit(c) && c as int - '0' as int == d
  {
    ('0' as int + d) as char
  }

  /** The number a string of decimal digits denotes (most significant first). */
  function Value(s: string): nat
    requires AllDigits(s)
    decreases |s|
  {
    if s == [] then 0 else 10 * Value(s[..|s| - 1]) + (s[|s| - 1] as int - '0' as int)
  }

  function Pow10(k: nat): (p: nat)
    ensures p >= 1
  {
    if k == 0 then 1 else 10 * Pow10(k - 1)
  }

  /** Minimal decimal form of n: "0" for zero, otherwise no leading zero. */
  function Digits(n: nat): (s: string)
    ensures 1 <= |s| && AllDigits(s)
    ensures Value(s) == n
    ensures n < Pow10(|s|)
    ensures |s| > 1 ==> s[0] != '0'
  {
    if n < 10 then [DigitChar(n)]
    else
      var prefix := Digits(n / 10);
      var s := prefix + [DigitChar(n % 10)];
      assert s[..|s| - 1] == prefix;
      s
  }

  function Zeros(k: nat): (s: string)
    ensures |s| == k && AllDigits(s)
    ensures forall i :: 0 <= i < k ==> s[i] == '0'
  {
    if k == 0 then [] else Zeros(k - 1) + ['0']
  }

  /** Leading zeros do not change the value of a digit string. */
  lemma {:induction false} ValueLeadingZeros(k: nat, s: string)
    requires AllDigits(s)
    ensures AllDigits(Zeros(k) + s) && Value(Zeros(k) + s) == Value(s)
  {
    var z := Zeros(k) + s;
    if s == [] {
      assert z == Zeros(k);
      ZerosValue(k);
    } else {
      var init := s[..|s| - 1];
      assert z[..|z| - 1] == Zeros(k) + init;
      ValueLeadingZeros(k, init);
    }
  }

  lemma {:induction false} ZerosValue(k: nat)
    ensures Value(Zeros(k)) == 0
  {
    if k > 0 {
      assert Zeros(k)[..k - 1] == Zeros(k - 1);
      ZerosValue(k - 1);
    }
  }

  /** A number below 10^w needs at most w digits. */
  lemma {:induction false} DigitsFit(n: nat, w: nat)
    ensures 1 <= w && n < Pow10(w) ==> |Digits(n)| <= w
  {
    if 1 <= w && n < Pow10(w) && n >= 10 {
      assert w >= 2;
      DigitsFit(n / 10, w - 1);
    }
  }

  /** n written with at least `width` digits, padded with leading zeros
      (Go's "2006", "01", "05" and ".000" layout elements). */
  function ZeroPad(n: nat, width: nat): (s: string)
    ensures AllDigits(s) && Value(s) == n
    ensures |s| == if |Digits(n)| < width then width else |Digits(n)|
    ensures 1 <= width && n < Pow10(width) ==> |s| == width
  {
    var d := Digits(n);
    var k := if |d| < width then width - |d| else 0;
    ValueLeadingZeros(k, d);
    DigitsFit(n, width);
    Zeros(k) + d
  }
}
