/** Decimal digit strings: the shape of the timestamp keys of a forecast
    segment, and their value as a natural number. */
module Digits {
  import opened Wrappers

  predicate IsDigit(c: char) {
    '0' <= c <= '9'
  }

  function DigitValue(c: char): (d: nat)
    requires IsDigit(c)
    ensures d < 10
  {
    (c as int) - ('0' as int)
  }

  function DigitChar(d: nat): (c: char)
    requires d < 10
    ensures IsDigit(c) && DigitValue(c) == d
  {
    ('0' as int + d) as char
  }

  predicate IsDigits(s: string) {
    forall i :: 0 <= i < |s| ==> IsDigit(s[i])
  }

  /** The value of a digit string, most significant digit first. */
  function DigitsValue(s: string): nat
    requires IsDigits(s)
    decreases |s|
  {
    if s == [] then 0 else DigitsValue(s[..|s| - 1]) * 10 + DigitValue(s[|s| - 1])
  }

  /** Reads a key as a natural number; only non-empty strings of decimal
      digits have a value (leading zeros are allowed, as when a number is
      parsed from its text). */
  function ParseNat(s: string): (r: Option<nat>)
    ensures r.Some? <==> s != [] && IsDigits(s)
  {
    if s != [] && IsDigits(s) then Some(DigitsValue(s)) else None
  }

  /** The canonical decimal text of a natural number (no leading zeros). */
  function Decimal(n: nat): (s: string)
    ensures s != [] && IsDigits(s)
    ensures |s| > 1 ==> s[0] != '0'
    decreases n
  {
    if n < 10 then [DigitChar(n)] else Decimal(n / 10) + [DigitChar(n % 10)]
  }

  /** Reading the decimal text of a number gives the number back. */
  lemma {:induction false} ParseDecimal(n: nat)
    ensures ParseNat(Decimal(n)) == Some(n)
  {
    var s := Decimal(n);
    if n < 10 {
      assert s[..|s| - 1] == [];
      assert DigitsValue(s) == DigitValue(DigitChar(n));
    } else {
      ParseDecimal(n / 10);
      assert s[..|s| - 1] == Decimal(n / 10);
    }
  }

  /** A leading zero does not change the value of a key. */
  lemma {:induction false} LeadingZero(s: string)
    requires s != [] && IsDigits(s)
    ensures ParseNat("0" + s) == ParseNat(s)
  {
    DigitsValueLeadingZero(s);
  }

  lemma {:induction false} DigitsValueLeadingZero(s: string)
    requires IsDigits(s)
    ensures IsDigits("0" + s) && DigitsValue("0" + s) == DigitsValue(s)
    decreases |s|
  {
    var t := "0" + s;
    assert IsDigits(t) by {
      forall i | 0 <= i < |t| ensures IsDigit(t[i]) {
        if i > 0 { assert t[i] == s[i - 1]; }
      }
    }
    if s == [] {
      assert t[..|t| - 1] == [];
    } else {
      DigitsValueLeadingZero(s[..|s| - 1]);
      assert t[..|t| - 1] == "0" + s[..|s| - 1];
    }
  }
}
