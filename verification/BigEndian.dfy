/** Integers of 1, 2, 4 and 8 bytes in network byte order, as zing/net/Buffer.h writes and reads them. */
module BigEndian {
  import opened Types

  function Power256(n: nat): nat {
    if n == 0 then 1 else 256 * Power256(n - 1)
  }

  function Digits(u: nat, n: nat): (s: bytes)
    ensures |s| == n
  {
    if n == 0 then [] else Digits(u / 256, n - 1) + [(u % 256) as byte]
  }

  function Number(s: bytes): nat {
    if s == [] then 0 else Number(s[..|s| - 1]) * 256 + s[|s| - 1] as nat
  }

  lemma {:induction false} NumberOfDigits(u: nat, n: nat)
    requires u < Power256(n)
    ensures Number(Digits(u, n)) == u
    decreases n
  {
    if n > 0 {
      var s := Digits(u, n);
      NumberOfDigits(u / 256, n - 1);
      assert s[..|s| - 1] == Digits(u / 256, n - 1);
    }
  }

  lemma {:induction false} DigitsOfNumber(s: bytes)
    ensures Number(s) < Power256(|s|) && Digits(Number(s), |s|) == s
    decreases |s|
  {
    if s != [] {
      var init, last := s[..|s| - 1], s[|s| - 1];
      DigitsOfNumber(init);
      var u := Number(s);
      assert u / 256 == Number(init) && u % 256 == last as nat;
      assert s == init + [last];
    }
  }

  /** Two's complement: the values of an `n`-byte signed integer. */
  predicate Fits(x: int, n: nat) { 0 - Power256(n) <= 2 * x < Power256(n) }

  function Encode(x: int, n: nat): (s: bytes)
    requires Fits(x, n)
    ensures |s| == n
  {
    Digits(if x < 0 then x + Power256(n) else x, n)
  }

  function Decode(s: bytes): int {
    var u := Number(s);
    if 2 * u >= Power256(|s|) then u - Power256(|s|) else u
  }

  /** What was written is read back. */
  lemma EncodeDecode(x: int, n: nat)
    requires Fits(x, n)
    ensures Decode(Encode(x, n)) == x
  {
    NumberOfDigits(if x < 0 then x + Power256(n) else x, n);
  }

  /** And every `n` bytes are what some value is written as. */
  lemma DecodeEncode(s: bytes)
    ensures Fits(Decode(s), |s|) && Encode(Decode(s), |s|) == s
  {
    DigitsOfNumber(s);
  }

  /** The most significant byte comes first. */
  lemma {:induction false} FirstByte(s: bytes)
    requires s != []
    ensures Number(s) == s[0] as nat * Power256(|s| - 1) + Number(s[1..])
    decreases |s|
  {
    var init, last := s[..|s| - 1], s[|s| - 1];
    if |s| == 1 {
      assert init == [] && s[1..] == [];
    } else {
      FirstByte(init);
      assert s[1..][..|s| - 2] == init[1..] && s[1..][|s| - 2] == last;
      assert Power256(|s| - 1) == 256 * Power256(|s| - 2);
      Shift(s[0] as nat, Power256(|s| - 2), Number(init[1..]), last as nat);
    }
  }

  lemma Shift(a: nat, p: nat, r: nat, l: nat)
    ensures (a * p + r) * 256 + l == a * (256 * p) + (r * 256 + l)
  {}

  /** And its top bit is the sign: a value is negative iff its first byte is at least 128. */
  lemma SignIsFirst(x: int, n: nat)
    requires n > 0 && Fits(x, n)
    ensures x < 0 <==> Encode(x, n)[0] >= 128
  {
    hide *;
    var s := Encode(x, n);
    EncodeDecode(x, n);
    NegativeIff(s);
    FirstByte(s);
    DigitsOfNumber(s[1..]);
    NextPower(n - 1);
    HalfIsFirst(s[0] as nat, Power256(n - 1), Number(s[1..]));
  }

  lemma NegativeIff(s: bytes)
    ensures Decode(s) < 0 <==> 2 * Number(s) >= Power256(|s|)
  {
    DigitsOfNumber(s);
  }

  lemma NextPower(n: nat)
    ensures Power256(n + 1) == 256 * Power256(n)
  {}

  lemma HalfIsFirst(a: nat, p: nat, r: nat)
    requires r < p
    ensures 2 * (a * p + r) >= 256 * p <==> a >= 128
  {
    if a >= 128 {
      TimesInOrder(128, a, p);
    } else {
      TimesInOrder(a + 1, 128, p);
      assert (a + 1) * p == a * p + p;
    }
  }

  lemma TimesInOrder(a: nat, b: nat, p: nat)
    requires a <= b
    ensures a * p <= b * p
  {
    assert b * p == a * p + (b - a) * p;
  }
}
