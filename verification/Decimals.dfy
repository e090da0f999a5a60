/** Numbers written in decimal, and read back. */
module Decimals {

  function Digit(n: nat): char
    requires n < 10
  {
    '0' + (n as char)
  }

  predicate IsDigit(c: char) { '0' <= c <= '9' }

  function DigitValue(c: char): nat
    requires IsDigit(c)
  {
    (c - '0') as nat
  }

  function Decimal(n: nat): (s: string)
    ensures s != [] && forall i :: 0 <= i < |s| ==> IsDigit(s[i])
  {
    if n < 10 then [Digit(n)] else Decimal(n / 10) + [Digit(n % 10)]
  }

  function Value(s: string): nat
    requires forall i :: 0 <= i < |s| ==> IsDigit(s[i])
  {
    if s == [] then 0 else 10 * Value(s[..|s| - 1]) + DigitValue(s[|s| - 1])
  }

  lemma {:induction false} DecimalReads(n: nat)
    ensures Value(Decimal(n)) == n
    decreases n
  {
    if n >= 10 {
      DecimalReads(n / 10);
      assert Decimal(n)[..|Decimal(n)| - 1] == Decimal(n / 10);
    } else {
      assert Value([]) == 0;
    }
  }

  function Pow10(n: nat): nat { if n == 0 then 1 else 10 * Pow10(n - 1) }

  /** A number below a power of ten has at most so many digits. */
  lemma {:induction false} DecimalFits(n: nat, digits: nat)
    requires n < Pow10(digits) && digits > 0
    ensures |Decimal(n)| <= digits
    decreases n
  {
    if n >= 10 {
      assert digits > 1;
      DecimalFits(n / 10, digits - 1);
    }
  }

  function Zeros(n: nat): (s: string)
    ensures |s| == n && forall i :: 0 <= i < n ==> s[i] == '0'
  {
    seq(n, _ => '0')
  }

  /** Right-aligned in `width` places, with zeros. */
  function Padded(n: nat, width: nat): (s: string)
    ensures forall i :: 0 <= i < |s| ==> IsDigit(s[i])
  {
    var digits := Decimal(n);
    if |digits| < width then Zeros(width - |digits|) + digits else digits
  }

  lemma {:induction false} ZerosCountNothing(zeros: nat, s: string)
    requires forall i :: 0 <= i < |s| ==> IsDigit(s[i])
    ensures Value(Zeros(zeros) + s) == Value(s)
    decreases |s|, zeros
  {
    if s != [] {
      ZerosCountNothing(zeros, s[..|s| - 1]);
      assert (Zeros(zeros) + s)[..zeros + |s| - 1] == Zeros(zeros) + s[..|s| - 1];
    } else if zeros > 0 {
      ZerosCountNothing(zeros - 1, s);
      assert (Zeros(zeros) + s)[..zeros - 1] == Zeros(zeros - 1) + s;
      assert (Zeros(zeros) + s)[zeros - 1] == '0';
    } else {
      assert Zeros(0) + s == s;
    }
  }

  /** Numbers as they are written: the last digit counts the ones. */
  lemma AsWritten()
    ensures Decimal(0) == "0" && Decimal(7) == "7" && Decimal(120) == "120" && Padded(7, 3) == "007" && Value("120") == 120
    ensures Pow10(3) == 1000
  {
    assert Decimal(1) == "1" && Decimal(12) == "12" && Decimal(120) == "120";
    DecimalReads(120);
    assert Zeros(2) == "00";
  }

  /** A number reads as itself, and takes just its places when it fits them. */
  lemma PaddedReads(n: nat, width: nat)
    ensures Value(Padded(n, width)) == n
    ensures 0 < width && n < Pow10(width) ==> |Padded(n, width)| == width
  {
    DecimalReads(n);
    var digits := Decimal(n);
    if |digits| < width { ZerosCountNothing(width - |digits|, digits); }
    if 0 < width && n < Pow10(width) { DecimalFits(n, width); }
  }
}
