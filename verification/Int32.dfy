/**
 Printing a 32-bit integer (util/util.go, Int32ToString).

 The text is written from the right end of an 11-byte buffer; Parse reads it back.
 */
module Int32 {

  newtype Int32 = x: int | -0x8000_0000 <= x < 0x8000_0000

  predicate IsDigit(c: char) { '0' <= c <= '9' }

  function Digit(d: int): char
    requires 0 <= d < 10
  {
    '0' + d as char
  }

  predicate AllDigits(s: string) { forall i | 0 <= i < |s| :: IsDigit(s[i]) }

  // The digits of n, most significant first.
  function Digits(n: nat): (s: string)
    ensures s != "" && AllDigits(s)
  {
    if n < 10 then [Digit(n)] else Digits(n / 10) + [Digit(n % 10)]
  }

  function Decimal(n: int): string { if n < 0 then "-" + Digits(-n) else Digits(n) }

  function ParseDigits(s: string): nat
    requires AllDigits(s)
  {
    if s == "" then 0 else 10 * ParseDigits(s[..|s| - 1]) + (s[|s| - 1] as int - '0' as int)
  }

  function Unsigned(s: string): string { if s != "" && s[0] == '-' then s[1..] else s }

  predicate IsNumeral(s: string) { Unsigned(s) != "" && AllDigits(Unsigned(s)) }

  function Parse(s: string): int
    requires IsNumeral(s)
  {
    var n: int := ParseDigits(Unsigned(s));
    if s[0] == '-' then -n else n
  }

  lemma {:induction false} ParseDigitsInverse(n: nat)
    ensures ParseDigits(Digits(n)) == n
  {
    if n >= 10 {
      ParseDigitsInverse(n / 10);
      assert Digits(n)[..|Digits(n)| - 1] == Digits(n / 10);
    } else {
      assert Digits(n)[..0] == "";
    }
  }

  // Printing loses nothing.
  lemma ParsesBack(n: int)
    ensures IsNumeral(Decimal(n)) && Parse(Decimal(n)) == n
  {
    var digits := Digits(if n < 0 then -n else n);
    assert Decimal(n) == if n < 0 then "-" + digits else digits;
    assert ("-" + digits)[1..] == digits;
    assert IsDigit(digits[0]);
    ParseDigitsInverse(if n < 0 then -n else n);
  }

  // Canonical: no leading zero but in "0" itself.
  lemma {:induction false} NoLeadingZero(n: nat)
    ensures Digits(n)[0] == '0' <==> n == 0
  {
    if n >= 10 {
      NoLeadingZero(n / 10);
      assert Digits(n)[0] == Digits(n / 10)[0];
    }
  }

  function Pow10(k: nat): nat { if k == 0 then 1 else 10 * Pow10(k - 1) }

  lemma {:induction false} DigitsLength(n: nat, k: nat)
    requires 0 < k
    ensures n < Pow10(k) <==> |Digits(n)| <= k
  {
    if k == 1 {
      assert Pow10(1) == 10;
    } else if n >= 10 {
      DigitsLength(n / 10, k - 1);
    } else {
      assert 10 <= Pow10(k) by { Pow10Grows(k); }
    }
  }

  lemma {:induction false} Pow10Grows(k: nat)
    requires 0 < k
    ensures 10 <= Pow10(k)
  {
    if k > 1 {
      Pow10Grows(k - 1);
    }
  }

  lemma FitsTheBuffer(n: int)
    requires -0x8000_0000 <= n < 0x8000_0000
    ensures |Digits(if n < 0 then -n else n)| <= 10
  {
    assert Pow10(10) == 10 * Pow10(9) == 100 * Pow10(8);
    assert Pow10(8) == 10 * Pow10(7) == 100 * Pow10(6);
    assert Pow10(6) == 10 * Pow10(5) == 100 * Pow10(4);
    assert Pow10(4) == 10 * Pow10(3) == 100 * Pow10(2);
    assert Pow10(2) == 10 * Pow10(1) == 100 * Pow10(0);
    DigitsLength(if n < 0 then -n else n, 10);
  }

  lemma LastDigit(n: nat)
    ensures Digits(n) == (if n / 10 == 0 then "" else Digits(n / 10)) + [Digit(n % 10)]
  {
  }

  // Every index into the buffer is in range, for the smallest integer too, whose
  // negation is taken in 64 bits.
  method Int32ToString(n: Int32) returns (s: string)
    ensures s == Decimal(n as int)
    ensures |s| <= 11
  {
    var buf := new char[11](_ => '\0');
    var pos := buf.Length;
    var i := n as int;
    var signed := i < 0;
    if signed {
      i := -i;
    }
    ghost var whole := Digits(i);
    FitsTheBuffer(n as int);
    while true
      invariant 0 <= i && |Digits(i)| + (11 - pos) <= 10 && 0 < pos <= 11
      invariant Digits(i) + buf[pos..] == whole
      decreases i, pos
    {
      ghost var rest, front := buf[pos..], if i / 10 == 0 then "" else Digits(i / 10);
      LastDigit(i);
      assert front + ([Digit(i % 10)] + rest) == Digits(i) + rest;
      pos := pos - 1;
      buf[pos] := Digit(i % 10);
      i := i / 10;
      assert buf[pos..] == [buf[pos]] + rest;
      if i == 0 {
        if signed {
          pos := pos - 1;
          buf[pos] := '-';
        }
        return buf[pos..];
      }
    }
  }

  // For one, in the usual digits.
  lemma OnePrinted()
    ensures Decimal(-105) == "-105"
  {
    assert Digits(10) == "10";
    assert Digits(105) == "105";
  }
}
