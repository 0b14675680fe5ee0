/** Numbers written in decimal. */
module DecimalText {
  function Digit(d: nat): char
    requires d < 10
  {
    "0123456789"[d]
  }

  function Decimal(n: nat): string {
    if n < 10 then [Digit(n)] else Decimal(n / 10) + [Digit(n % 10)]
  }

  function Zeros(n: nat): string {
    if n == 0 then "" else "0" + Zeros(n - 1)
  }

  /** Decimal, with zeros in front up to a width. */
  function Padded(n: nat, width: nat): string {
    var s := Decimal(n);
    if |s| >= width then s else Zeros(width - |s|) + s
  }

  /** Exactly `width` digits. */
  function Fixed(n: nat, width: nat): string {
    if width == 0 then "" else Fixed(n / 10, width - 1) + [Digit(n % 10)]
  }

  function Pow10(n: nat): nat {
    if n == 0 then 1 else 10 * Pow10(n - 1)
  }

  lemma {:induction false} FixedWidth(n: nat, width: nat)
    ensures |Fixed(n, width)| == width
    decreases width
  {
    if width > 0 { FixedWidth(n / 10, width - 1); }
  }

  lemma {:induction false} FixedZero(width: nat)
    ensures Fixed(0, width) == Zeros(width)
  {
    if width > 0 {
      FixedZero(width - 1);
      ZerosAppend(width - 1);
    }
  }

  lemma {:induction false} ZerosAppend(n: nat)
    ensures Zeros(n) + "0" == "0" + Zeros(n)
  {
    if n > 0 { ZerosAppend(n - 1); assert Zeros(n) + "0" == "0" + (Zeros(n - 1) + "0"); }
  }

  lemma PaddedDigit(n: nat, width: nat)
    requires width > 0 && n < 10
    ensures Padded(n, width) == Zeros(width - 1) + [Digit(n)]
  {
    assert |Decimal(n)| == 1;
  }

  lemma PaddedMore(n: nat, width: nat)
    requires n >= 10 && width > 1
    ensures Padded(n, width) == Padded(n / 10, width - 1) + [Digit(n % 10)]
  {
    var s := Decimal(n / 10);
    assert Decimal(n) == s + [Digit(n % 10)];
    if |s| < width - 1 {
      assert Zeros(width - 1 - |s|) + (s + [Digit(n % 10)]) == Zeros(width - 1 - |s|) + s + [Digit(n % 10)];
    }
  }

  /** Padding fills the width exactly, as long as the number fits it. */
  lemma {:induction false} PaddedIsFixed(n: nat, width: nat)
    requires width > 0 && n < Pow10(width)
    ensures Padded(n, width) == Fixed(n, width) && |Padded(n, width)| == width
    decreases width
  {
    FixedWidth(n, width);
    if n < 10 {
      assert n / 10 == 0 && n % 10 == n;
      FixedZero(width - 1);
      PaddedDigit(n, width);
    } else {
      assert width > 1;
      PaddedIsFixed(n / 10, width - 1);
      PaddedMore(n, width);
    }
  }

  function IntText(i: int): string {
    if i >= 0 then Decimal(i) else "-" + Decimal(-i)
  }

  // ---------------------------------------------------------------- reading

  predicate IsDigit(c: char) {
    '0' <= c <= '9'
  }

  predicate AllDigits(s: string) {
    forall c :: c in s ==> IsDigit(c)
  }

  /** The number some decimal digits stand for. */
  function ValueOf(digits: string): nat
    requires AllDigits(digits)
  {
    if digits == [] then 0
    else
      assert IsDigit(digits[|digits| - 1]);
      ValueOf(digits[..|digits| - 1]) * 10 + (digits[|digits| - 1] as int - '0' as int)
  }

  lemma DigitReads(d: nat)
    requires d < 10
    ensures IsDigit(Digit(d)) && Digit(d) as int - '0' as int == d
  {
  }

  lemma {:induction false} FixedReads(n: nat, width: nat)
    requires n < Pow10(width)
    ensures AllDigits(Fixed(n, width)) && ValueOf(Fixed(n, width)) == n
    decreases width
  {
    if width > 0 {
      var front := Fixed(n / 10, width - 1);
      FixedReads(n / 10, width - 1);
      DigitReads(n % 10);
      assert Fixed(n, width)[..|front|] == front;
    }
  }

  lemma {:induction false} DecimalReads(n: nat)
    ensures AllDigits(Decimal(n)) && Decimal(n) != [] && ValueOf(Decimal(n)) == n
  {
    DigitReads(n % 10);
    if n < 10 {
      assert Decimal(n)[..0] == [];
    } else {
      var front := Decimal(n / 10);
      DecimalReads(n / 10);
      assert Decimal(n)[..|front|] == front;
    }
  }

  /** The number a text stands for, with or without a minus sign. */
  predicate StandsForInt(s: string, i: int) {
    if s != [] && s[0] == '-' then AllDigits(s[1..]) && s[1..] != [] && i + ValueOf(s[1..]) == 0
    else AllDigits(s) && s != [] && i == ValueOf(s)
  }

  /** The text of an integer stands for that integer and for no other. */
  lemma IntReadsBack(i: int)
    ensures StandsForInt(IntText(i), i) && forall j :: StandsForInt(IntText(i), j) ==> j == i
  {
    DecimalReads(if i >= 0 then i else -i);
    if i >= 0 {
      assert IsDigit(Decimal(i)[0]);
    } else {
      assert IntText(i)[1..] == Decimal(-i);
    }
  }

  lemma {:induction false} DecimalIsDigits(n: nat)
    ensures forall c :: c in Decimal(n) ==> '0' <= c <= '9'
  {
    if n >= 10 { DecimalIsDigits(n / 10); }
  }
}
