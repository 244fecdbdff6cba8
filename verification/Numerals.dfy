/** Numerals in base 10 and 16: what they look like, and what they stand for. */
module Numerals {
  /** A digit; the source's `digitsHex`. */
  function Digit(d: int): char
    requires 0 <= d < 16
  {
    "0123456789ABCDEF"[d]
  }

  predicate IsDigit(c: char, base: nat) {
    '0' <= c <= '9' || (base == 16 && 'A' <= c <= 'F')
  }

  function DigitValue(c: char): int {
    if c <= '9' then c as int - '0' as int else c as int - 'A' as int + 10
  }

  predicate IsBase(base: nat) { base == 10 || base == 16 }

  /** The numeral, most significant digit first and without leading zeros. */
  function Numeral(n: nat, base: nat): string
    requires IsBase(base)
  {
    if n < base then [Digit(n)] else Numeral(n / base, base) + [Digit(n % base)]
  }

  function Decimal(v: int): string {
    if v < 0 then "-" + Numeral(-v, 10) else Numeral(v, 10)
  }

  /** How a reader understands it. */
  function Value(s: string, base: nat): int {
    if s == [] then 0 else Value(s[..|s| - 1], base) * base + DigitValue(s[|s| - 1])
  }

  function DecimalValue(s: string): int {
    if s != [] && s[0] == '-' then -Value(s[1..], 10) else Value(s, 10)
  }

  predicate AreDigits(s: string, base: nat) { forall c :: c in s ==> IsDigit(c, base) }

  predicate IsNumeral(s: string, base: nat) {
    s != [] && AreDigits(s, base) && (s[0] == '0' ==> |s| == 1)
  }

  predicate IsDecimal(s: string) {
    if s != [] && s[0] == '-' then IsNumeral(s[1..], 10) && s[1] != '0' else IsNumeral(s, 10)
  }

  lemma DigitOk(d: int, base: nat)
    requires IsBase(base) && 0 <= d < base
    ensures IsDigit(Digit(d), base) && DigitValue(Digit(d)) == d && (Digit(d) == '0' <==> d == 0)
  {}

  lemma DigitBack(c: char, base: nat)
    requires IsBase(base) && IsDigit(c, base)
    ensures 0 <= DigitValue(c) < base && Digit(DigitValue(c)) == c
  {}

  /** One more digit behind a number that is not zero. */
  lemma DigitBehind(s: string, d: int, base: nat)
    requires IsBase(base) && 0 <= d < base && IsNumeral(s, base) && s[0] != '0'
    ensures IsNumeral(s + [Digit(d)], base) && Value(s + [Digit(d)], base) == Value(s, base) * base + d
    ensures (s + [Digit(d)])[0] != '0'
  {
    DigitOk(d, base);
    assert (s + [Digit(d)])[..|s|] == s;
  }

  lemma OneDigit(d: int, base: nat)
    requires IsBase(base) && 0 <= d < base
    ensures IsNumeral([Digit(d)], base) && Value([Digit(d)], base) == d && ([Digit(d)][0] == '0' <==> d == 0)
  {
    DigitOk(d, base);
    assert Value([], base) == 0 && [Digit(d)][..0] == [];
  }

  lemma {:induction false} NumeralOk(n: nat, base: nat)
    requires IsBase(base)
    ensures var s := Numeral(n, base);
            IsNumeral(s, base) && Value(s, base) == n && (s[0] == '0' <==> n == 0)
    decreases n
  {
    hide IsNumeral, Value, Digit;
    if n >= base {
      NumeralOk(n / base, base);
      assert n / base > 0;
      var s := Numeral(n / base, base);
      assert s != [] by { HasDigits(s, base); }
      DigitBehind(s, n % base, base);
    } else {
      OneDigit(n, base);
    }
  }

  lemma HasDigits(s: string, base: nat)
    requires IsNumeral(s, base)
    ensures s != []
  {}

  lemma {:induction false} ValueAtLeast(s: string, base: nat)
    requires IsBase(base) && AreDigits(s, base)
    ensures Value(s, base) >= 0 && (s != [] && s[0] != '0' ==> Value(s, base) > 0)
    decreases |s|
  {
    if s != [] {
      DigitBack(s[|s| - 1], base);
      ValueAtLeast(s[..|s| - 1], base);
    }
  }

  /** Two numerals without leading zeros that stand for the same number are the same. */
  lemma {:induction false} NumeralUnique(s: string, base: nat)
    requires IsBase(base) && IsNumeral(s, base)
    ensures Value(s, base) >= 0 && Numeral(Value(s, base), base) == s
    decreases |s|
  {
    var init, last := s[..|s| - 1], s[|s| - 1];
    assert s == init + [last];
    DigitBack(last, base);
    if init == [] {
      assert Value(init, base) == 0;
    } else {
      IsNumeralInit(s, base);
      hide Value, Numeral, IsNumeral, Digit, DigitValue;
      NumeralUnique(init, base);
      ValueSplits(s, base);
      var q, d := Value(init, base), DigitValue(last);
      Quotient(q, d, base);
      NumeralSplits(q * base + d, base);
    }
  }

  /** All but the last digit of a longer numeral. */
  lemma IsNumeralInit(s: string, base: nat)
    requires IsBase(base) && IsNumeral(s, base) && |s| > 1
    ensures IsNumeral(s[..|s| - 1], base) && Value(s[..|s| - 1], base) > 0
  {
    ValueAtLeast(s[..|s| - 1], base);
  }

  lemma ValueSplits(s: string, base: nat)
    requires s != []
    ensures Value(s, base) == Value(s[..|s| - 1], base) * base + DigitValue(s[|s| - 1])
  {}

  lemma NumeralSplits(n: nat, base: nat)
    requires IsBase(base) && n >= base
    ensures Numeral(n, base) == Numeral(n / base, base) + [Digit(n % base)]
  {}

  lemma Quotient(q: int, r: int, base: nat)
    requires IsBase(base) && 0 <= r < base
    ensures (q * base + r) / base == q && (q * base + r) % base == r
  {}

  /** `Decimal` gives the canonical numeral, and reading it gives the number back. */
  lemma DecimalReadsBack(v: int)
    ensures IsDecimal(Decimal(v)) && DecimalValue(Decimal(v)) == v
  {
    NumeralOk(if v < 0 then -v else v, 10);
    var s := Decimal(v);
    if v < 0 {
      assert s[1..] == Numeral(-v, 10);
    } else {
      assert s[0] in s;
    }
  }

  /** There is no other canonical numeral for it. */
  lemma DecimalUnique(s: string)
    requires IsDecimal(s)
    ensures Decimal(DecimalValue(s)) == s
  {
    if s[0] == '-' {
      NumeralUnique(s[1..], 10);
      ValueAtLeast(s[1..], 10);
      assert s == "-" + s[1..];
    } else {
      NumeralUnique(s, 10);
    }
  }

  function Power(base: nat, n: nat): nat {
    if n == 0 then 1 else base * Power(base, n - 1)
  }

  lemma {:induction false} NumeralLength(n: nat, base: nat, k: nat)
    requires IsBase(base) && k > 0 && n < Power(base, k)
    ensures |Numeral(n, base)| <= k
    decreases k
  {
    if n >= base {
      assert k > 1 by { assert Power(base, 1) == base * Power(base, 0); }
      NumeralLength(n / base, base, k - 1);
    }
  }
}
