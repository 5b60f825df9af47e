/** Decimal digits: zero-padded printing, and reading. */
module Decimal {
  import opened Division

  function DigitChar(d: nat): char
    requires d < 10
  {
    '0' + d as char
  }

  predicate IsDigit(c: char) { '0' <= c <= '9' }

  predicate AllDigits(s: string) { forall i :: 0 <= i < |s| ==> IsDigit(s[i]) }

  function DigitValue(c: char): nat
    requires IsDigit(c)
  {
    c as nat - '0' as nat
  }

  /** n with leading zeros, cut to its last `width` digits. */
  function Pad(n: nat, width: nat): (s: string)
    ensures |s| == width && AllDigits(s)
  {
    if width == 0 then "" else Pad(n / 10, width - 1) + [DigitChar(n % 10)]
  }

  function Number(s: string): nat
    requires AllDigits(s)
  {
    if s == "" then 0 else 10 * Number(s[..|s| - 1]) + DigitValue(s[|s| - 1])
  }

  function Pow10(k: nat): (p: nat)
    ensures p > 0
  {
    if k == 0 then 1 else 10 * Pow10(k - 1)
  }

  lemma {:induction false} PadNumber(n: nat, width: nat)
    requires n < Pow10(width)
    ensures Number(Pad(n, width)) == n
  {
    if width > 0 {
      PadNumber(n / 10, width - 1);
      assert Pad(n, width)[..width - 1] == Pad(n / 10, width - 1);
    }
  }

  lemma DigitBack(c: char)
    requires IsDigit(c)
    ensures DigitValue(c) < 10 && DigitChar(DigitValue(c)) == c
  {
  }

  /** Digits are the padded print of the number they stand for. */
  lemma {:induction false} PadBack(s: string)
    requires AllDigits(s)
    ensures Pad(Number(s), |s|) == s && Number(s) < Pow10(|s|)
  {
    if s != "" {
      var front, c := s[..|s| - 1], s[|s| - 1];
      PadBack(front);
      DigitBack(c);
      QuotientIs(Number(s), 10, Number(front), DigitValue(c));
      assert s == front + [c];
    }
  }

  /** Cutting off the last digits divides. */
  lemma {:induction false} PadPrefix(n: nat, width: nat, cut: nat)
    requires cut <= width
    ensures Pad(n, width)[..width - cut] == Pad(n / Pow10(cut), width - cut)
    decreases width
  {
    if cut == 0 {
      assert Pad(n, width)[..width] == Pad(n, width);
    } else {
      PadPrefix(n / 10, width - 1, cut - 1);
      assert Pad(n, width)[..width - cut] == Pad(n / 10, width - 1)[..width - cut];
      DivDiv(n, Pow10(cut - 1));
    }
  }
}
