/**
 The names that everything derives from a container's index: two digits or
 more, and the application id whose decimal digits are read back as hex.
 */
module Names {
  import opened Decimal

  /** str(n) */
  function Str(n: nat): (s: string)
    ensures s != "" && AllDigits(s)
  {
    if n < 10 then [DigitChar(n)] else Str(n / 10) + [DigitChar(n % 10)]
  }

  /** str(i).zfill(2) */
  function Name(i: nat): (s: string)
    ensures AllDigits(s) && |s| >= 2
  {
    if i < 10 then "0" + Str(i) else Str(i)
  }

  lemma {:induction false} StrNumber(n: nat)
    ensures Number(Str(n)) == n
  {
    if n >= 10 {
      StrNumber(n / 10);
      assert Str(n)[..|Str(n)| - 1] == Str(n / 10);
    } else {
      assert Str(n)[..0] == "";
    }
  }

  /** Two digits below 100, and the plain number from there on. */
  lemma NameText(i: nat)
    ensures i < 100 ==> Name(i) == [DigitChar(i / 10), DigitChar(i % 10)]
    ensures i >= 100 ==> Name(i) == Str(i)
  {
    if i < 10 {
      assert Name(i) == ['0'] + [DigitChar(i)];
    } else if i < 100 {
      assert Str(i / 10) == [DigitChar(i / 10)];
    }
  }

  /** A name parses back to its index, so different indices have different names. */
  lemma NameNumber(i: nat)
    ensures Number(Name(i)) == i
  {
    StrNumber(i);
    if i < 10 {
      assert Name(i)[..1] == "0" && "0"[..0] == "";
    }
  }

  lemma NamesDiffer(i: nat, j: nat)
    requires i != j
    ensures Name(i) != Name(j)
  {
    NameNumber(i);
    NameNumber(j);
  }

  // ---- application ids ----

  const UINT16_MAX := 0xffff

  /** "0x10" + name */
  function IdText(i: nat): string { "0x10" + Name(i) }

  function HexNumber(s: string): nat
    requires AllDigits(s)
  {
    if s == "" then 0 else 16 * HexNumber(s[..|s| - 1]) + DigitValue(s[|s| - 1])
  }

  /** stream >> uint16_t: a number that is too large becomes the maximum. */
  function Extract(n: nat): nat { if n > UINT16_MAX then UINT16_MAX else n }

  /** set_predefined_attributes: with the prefix 0x the text is hex, else decimal. */
  function ReadId(text: string): nat
    requires if "0x" <= text then AllDigits(text[2..]) else AllDigits(text)
  {
    Extract(if "0x" <= text then HexNumber(text[2..]) else Number(text))
  }

  function Id(i: nat): nat {
    assert IdText(i)[2..] == "10" + Name(i);
    ReadId(IdText(i))
  }

  /** Decimal digits read as hex, without text. */
  function AsHex(n: nat): nat { if n < 10 then n else 16 * AsHex(n / 10) + n % 10 }

  lemma {:induction false} AsHexIncreases(i: nat, j: nat)
    requires i < j
    ensures AsHex(i) < AsHex(j)
  {
    if j >= 10 {
      if i / 10 < j / 10 {
        AsHexIncreases(i / 10, j / 10);
      }
    }
  }

  function Pow16(k: nat): nat { if k == 0 then 1 else 16 * Pow16(k - 1) }

  lemma HexLast(s: string)
    requires AllDigits(s) && s != ""
    ensures HexNumber(s) == 16 * HexNumber(s[..|s| - 1]) + DigitValue(s[|s| - 1])
  {
  }

  /** Text in front counts with its place value. */
  lemma {:induction false} HexConcat(a: string, b: string)
    requires AllDigits(a) && AllDigits(b)
    ensures AllDigits(a + b) && HexNumber(a + b) == HexNumber(a) * Pow16(|b|) + HexNumber(b)
  {
    if b == "" {
      assert a + b == a;
    } else {
      var front := b[..|b| - 1];
      HexConcat(a, front);
      HexLast(a + b);
      HexLast(b);
      assert (a + b)[..|a + b| - 1] == a + front && (a + b)[|a + b| - 1] == b[|b| - 1];
      Shift(HexNumber(a), Pow16(|front|));
    }
  }

  lemma Shift(a: nat, p: nat)
    ensures a * (16 * p) == 16 * (a * p)
  {
  }

  lemma {:induction false} HexStr(n: nat)
    ensures HexNumber(Str(n)) == AsHex(n)
  {
    if n >= 10 {
      HexStr(n / 10);
      assert Str(n)[..|Str(n)| - 1] == Str(n / 10);
    } else {
      assert Str(n)[..0] == "";
    }
  }

  lemma HexName(i: nat)
    ensures HexNumber(Name(i)) == AsHex(i)
  {
    HexStr(i);
    if i < 10 {
      assert Name(i)[..1] == "0" && "0"[..0] == "";
    }
  }

  lemma {:induction false} StrLength(n: nat)
    ensures n >= 100 ==> |Str(n)| >= 3
    ensures 10 <= n < 100 ==> |Str(n)| == 2
    ensures n < 10 ==> |Str(n)| == 1
  {
    if n >= 10 { StrLength(n / 10); }
  }

  lemma {:induction false} Pow16Grows(k: nat)
    requires k >= 3
    ensures Pow16(k) >= 0x1000
  {
    if k == 3 {
      assert Pow16(3) == 16 * Pow16(2) && Pow16(2) == 16 * Pow16(1) && Pow16(1) == 16;
    } else {
      Pow16Grows(k - 1);
    }
  }

  lemma HexId(i: nat)
    ensures AllDigits(IdText(i)[2..]) && HexNumber(IdText(i)[2..]) == 0x10 * Pow16(|Name(i)|) + AsHex(i)
  {
    assert IdText(i)[2..] == "10" + Name(i);
    HexConcat("10", Name(i));
    HexName(i);
    assert "10"[..1] == "1" && "1"[..0] == "";
  }

  /** Below 100 the id is 0x1000 plus the digits; from 100 on the number does not fit and all ids are the same. */
  lemma IdIs(i: nat)
    ensures Id(i) == if i < 100 then 0x1000 + AsHex(i) else 0xffff
    ensures i < 100 ==> Id(i) <= 0x1099
  {
    HexId(i);
    StrLength(i);
    assert Id(i) == Extract(HexNumber(IdText(i)[2..]));
    if i < 100 {
      assert Pow16(2) == 16 * Pow16(1) && Pow16(1) == 16;
      if i < 99 { AsHexIncreases(i, 99); }
      assert AsHex(99) == 0x99;
    } else {
      Pow16Grows(|Name(i)|);
    }
  }

  /** The ids of the first n containers are pairwise distinct exactly if n is at most 101. */
  lemma DistinctIds(n: nat)
    ensures (forall i, j :: 0 <= i < j < n ==> Id(i) != Id(j)) <==> n <= 101
  {
    IdIs(100);
    if n <= 101 {
      forall i, j | 0 <= i < j < n ensures Id(i) != Id(j) {
        IdIs(i);
        IdIs(j);
        AsHexIncreases(i, j);
      }
    } else {
      IdIs(101);
      assert 0 <= 100 < 101 < n && Id(100) == Id(101);
    }
  }
}
