/** Decimal text of 64-bit signed integers, as Rust's `Display` for `i64` writes it,
    and a reader that accepts exactly that text and recovers the value from it. */
module Decimal {
  import opened Results

  predicate InI64(x: int) {
    -0x8000_0000_0000_0000 <= x <= 0x7FFF_FFFF_FFFF_FFFF
  }

  /** Rust's `i64`. */
  type I64 = x: int | InI64(x)

  predicate IsDigit(c: char) {
    '0' <= c <= '9'
  }

  predicate AllDigits(s: string) {
    forall i :: 0 <= i < |s| ==> IsDigit(s[i])
  }

  /** One or more digits, with no leading zero unless the text is `0` itself. */
  predicate Canonical(s: string) {
    |s| > 0 && AllDigits(s) && (s[0] == '0' ==> |s| == 1)
  }

  function DigitChar(d: nat): (c: char)
    requires d < 10
    ensures IsDigit(c)
    ensures c as int - '0' as int == d
  {
    (d + '0' as int) as char
  }

  function DigitValue(c: char): (d: nat)
    requires IsDigit(c)
    ensures d < 10
    ensures DigitChar(d) == c
  {
    c as int - '0' as int
  }

  /** The value a run of decimal digits denotes, most significant digit first. */
  function DigitsValue(s: string): nat
    requires AllDigits(s)
    decreases |s|
  {
    if |s| == 0 then 0 else DigitsValue(s[..|s| - 1]) * 10 + DigitValue(s[|s| - 1])
  }

  /** The shortest decimal text of `n`: digits only, and no leading zero except for `0` itself. */
  function NatText(n: nat): (s: string)
    ensures Canonical(s)
    ensures s[0] == '0' <==> n == 0
    decreases n
  {
    if n < 10 then [DigitChar(n)] else NatText(n / 10) + [DigitChar(n % 10)]
  }

  lemma {:induction false} NatTextValue(n: nat)
    ensures DigitsValue(NatText(n)) == n
    decreases n
  {
    if n >= 10 {
      NatTextValue(n / 10);
      var s := NatText(n);
      assert s[..|s| - 1] == NatText(n / 10);
    }
  }

  /** Digits that do not start with `0` denote a positive value. */
  lemma {:induction false} LeadingNonZeroPositive(s: string)
    requires |s| > 0 && AllDigits(s) && s[0] != '0'
    ensures DigitsValue(s) >= 1
    decreases |s|
  {
    if |s| > 1 {
      LeadingNonZeroPositive(s[..|s| - 1]);
    }
  }

  /** Canonical digits are the shortest text of the value they denote. */
  lemma {:induction false} NatTextOfDigits(s: string)
    requires Canonical(s)
    ensures NatText(DigitsValue(s)) == s
    decreases |s|
  {
    if |s| > 1 {
      var p := s[..|s| - 1];
      var d := DigitValue(s[|s| - 1]);
      LeadingNonZeroPositive(p);
      NatTextOfDigits(p);
      var v := DigitsValue(s);
      assert v == DigitsValue(p) * 10 + d;
      assert v / 10 == DigitsValue(p) && v % 10 == d;
      assert s == p + [s[|s| - 1]];
    }
  }

  /** `format!("{}", n)` for an `i64`: a minus sign for negative values, then the
      shortest decimal text of the magnitude. */
  function IntText(n: I64): (s: string)
    ensures n == 0 ==> s == "0"
    ensures n > 0 ==> Canonical(s) && s[0] != '0'
    ensures n < 0 ==> |s| > 1 && s[0] == '-' && Canonical(s[1..]) && s[1] != '0'
    ensures forall i :: 0 <= i < |s| ==> s[i] == '-' || IsDigit(s[i])
  {
    if n < 0 then
      var s := "-" + NatText(-(n as int));
      assert s[1..] == NatText(-(n as int));
      s
    else
      NatText(n)
  }

  /** Reads an optional minus sign followed by canonical digits; `-0` is refused, and so is
      any value outside the `i64` range. */
  function ReadInt(s: string): Option<I64> {
    if |s| > 0 && s[0] == '-' then
      if Canonical(s[1..]) && s[1] != '0' && InI64(0 - DigitsValue(s[1..])) then Some(0 - DigitsValue(s[1..]))
      else None
    else if Canonical(s) && InI64(DigitsValue(s)) then Some(DigitsValue(s))
    else None
  }

  /** The decimal text of an `i64` reads back as that value, so the rendering loses nothing. */
  lemma IntTextRoundTrip(n: I64)
    ensures ReadInt(IntText(n)) == Some(n)
  {
    if n < 0 {
      NatTextValue(-(n as int));
      assert IntText(n)[1..] == NatText(-(n as int));
    } else {
      NatTextValue(n);
    }
  }

  /** The reader accepts only the text `IntText` writes: whatever it reads is an `i64`
      value, and the text is exactly that value's decimal text. */
  lemma ReadIntOnlyIntText(s: string, n: int)
    requires ReadInt(s) == Some(n)
    ensures InI64(n) && s == IntText(n)
  {
    if |s| > 0 && s[0] == '-' {
      NatTextOfDigits(s[1..]);
      assert s == "-" + s[1..];
    } else {
      NatTextOfDigits(s);
    }
  }

  /** The reader stops at the `i64` bounds: the largest and the smallest value read back,
      and one step beyond either is refused. */
  lemma ReadIntAtBounds()
    ensures ReadInt(NatText(0x7FFF_FFFF_FFFF_FFFF)) == Some(0x7FFF_FFFF_FFFF_FFFF)
    ensures ReadInt(NatText(0x8000_0000_0000_0000)) == None
    ensures ReadInt("-" + NatText(0x8000_0000_0000_0000)) == Some(-0x8000_0000_0000_0000)
    ensures ReadInt("-" + NatText(0x8000_0000_0000_0001)) == None
  {
    NatTextValue(0x7FFF_FFFF_FFFF_FFFF);
    NatTextValue(0x8000_0000_0000_0000);
    NatTextValue(0x8000_0000_0000_0001);
    assert ("-" + NatText(0x8000_0000_0000_0000))[1..] == NatText(0x8000_0000_0000_0000);
    assert ("-" + NatText(0x8000_0000_0000_0001))[1..] == NatText(0x8000_0000_0000_0001);
  }


}
