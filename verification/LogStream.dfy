/**
 zing/base/LogStream.h and zing/base/LogStream.cpp: integers are formatted straight into the free part of a
 fixed array, which is never overrun.
 */
module LogStream {
  import opened CArithmetic
  import opened Numerals
  import opened Types

  /** `digits`, whose middle is `zero`. */
  const DIGITS: string := "9876543210123456789"
  const ZERO: nat := 9

  const MAX_NUMERIC_SIZE: nat := 48
  const SMALL_BUFFER: nat := 4000

  /** The values of `long long` and `unsigned long long`. */
  predicate IsInteger(v: int) { -0x8000_0000_0000_0000 <= v <= 0xFFFF_FFFF_FFFF_FFFF }

  predicate IsAddress(v: int) { 0 <= v <= 0xFFFF_FFFF_FFFF_FFFF }

  function Abs(v: int): nat { if v < 0 then -v else v }

  function Reversed(s: string): (r: string)
    ensures |r| == |s|
    ensures forall k :: 0 <= k < |s| ==> r[k] == s[|s| - 1 - k]
  {
    seq(|s|, k requires 0 <= k < |s| => s[|s| - 1 - k])
  }

  lemma ReversedAppend(s: string, c: char)
    ensures Reversed(s + [c]) == [c] + Reversed(s)
  {}

  lemma DigitOfRemainder(i: int)
    ensures -9 <= CMod(i, 10) <= 9 && DIGITS[ZERO + CMod(i, 10)] == Digit(Abs(i) % 10)
    ensures Abs(CDiv(i, 10)) == Abs(i) / 10
  {}

  lemma Powers()
    ensures Power(10, 19) == 10000000000000000000 && Power(10, 20) == 100000000000000000000
    ensures Power(16, 16) == 0x1_0000_0000_0000_0000
  {
    assert Power(10, 5) == 100000;
    assert Power(10, 10) == 10000000000;
    assert Power(10, 15) == 1000000000000000;
    assert Power(16, 4) == 0x1_0000;
    assert Power(16, 8) == 0x1_0000_0000;
    assert Power(16, 12) == 0x1_0000_0000_0000;
  }

  /** A 64-bit integer takes at most 20 characters, its sign included, and an address 16. */
  lemma Lengths(v: int)
    ensures IsInteger(v) ==> 1 <= |Decimal(v)| <= 20
    ensures IsAddress(v) ==> 1 <= |Numeral(v, 16)| <= 16
  {
    Powers();
    if IsInteger(v) { NumeralLength(Abs(v), 10, if v < 0 then 19 else 20); }
    if IsAddress(v) { NumeralLength(v, 16, 16); }
  }

  /** `std::reverse`. */
  method Reverse(buf: array<char>, start: nat, end: nat)
    requires start <= end <= buf.Length
    modifies buf
    ensures buf[start..end] == Reversed(old(buf[start..end]))
    ensures buf[..start] == old(buf[..start]) && buf[end..] == old(buf[end..])
  {
    ghost var was := buf[start..end];
    var i, j := start, end;
    while i < j
      invariant start <= i <= end && j == end - (i - start) && i <= j + 1
      invariant forall k :: start <= k < i || j <= k < end ==> buf[k] == was[end - 1 - k]
      invariant forall k :: i <= k < j ==> buf[k] == was[k - start]
      invariant buf[..start] == old(buf[..start]) && buf[end..] == old(buf[end..])
    {
      j := j - 1;
      buf[i], buf[j] := buf[j], buf[i];
      i := i + 1;
    }
  }

  /** What is left of a number, followed by the digits written so far, backwards, is the number. */
  predicate Splits(n: nat, base: nat, rest: nat, written: string)
    requires IsBase(base)
  {
    Numeral(n, base) == (if rest == 0 && written != [] then [] else Numeral(rest, base)) + Reversed(written)
  }

  lemma SplitsStart(n: nat, base: nat)
    requires IsBase(base)
    ensures Splits(n, base, n, [])
  {
    assert Numeral(n, base) + Reversed([]) == Numeral(n, base);
  }

  lemma SplitsStep(n: nat, base: nat, rest: nat, written: string)
    requires IsBase(base) && Splits(n, base, rest, written) && (rest != 0 || written == [])
    ensures Splits(n, base, rest / base, written + [Digit(rest % base)])
  {
    hide Reversed, Numeral;
    var c := Digit(rest % base);
    ReversedAppend(written, c);
    NumeralStep(rest, base);
    var high := if rest / base == 0 then [] else Numeral(rest / base, base);
    assert high + [c] + Reversed(written) == high + ([c] + Reversed(written));
  }

  lemma NumeralStep(n: nat, base: nat)
    requires IsBase(base)
    ensures Numeral(n, base) == (if n / base == 0 then [] else Numeral(n / base, base)) + [Digit(n % base)]
  {}

  lemma SplitsLength(n: nat, base: nat, rest: nat, written: string)
    requires IsBase(base) && Splits(n, base, rest, written)
    ensures |written| <= |Numeral(n, base)| && (rest != 0 || written == [] ==> |written| < |Numeral(n, base)|)
  {}

  /** `convert`: truncating division keeps the sign of the rest, so that the least integer is never negated. */
  method Convert(buf: array<char>, start: nat, value: int) returns (len: nat)
    requires IsInteger(value) && start + 20 < buf.Length
    modifies buf
    ensures len == |Decimal(value)| && start + len < buf.Length
    ensures buf[start..start + len] == Decimal(value) && buf[start + len] == '\0'
    ensures buf[..start] == old(buf[..start])
  {
    hide Numeral, Reversed, Splits, CMod, CDiv, Decimal;
    ghost var n := Abs(value);
    SplitsStart(n, 10);
    var i := value;
    var p := start;
    var more := true;
    assert buf[start..p] == [];
    while more
      invariant start <= p < buf.Length && (more <==> i != 0 || p == start)
      invariant Splits(n, 10, Abs(i), buf[start..p])
      invariant buf[..start] == old(buf[..start])
      decreases more, Abs(i)
    {
      ghost var rest, written := Abs(i), buf[start..p];
      HasRoom(value, rest, written);
      SplitsStep(n, 10, rest, written);
      DigitOfRemainder(i);
      var lsd := CMod(i, 10);
      i := CDiv(i, 10);
      buf[p] := DIGITS[ZERO + lsd];
      p := p + 1;
      assert buf[start..p] == written + [Digit(rest % 10)];
      more := i != 0;
    }
    ghost var written := buf[start..p];
    Signed(value, written);
    if value < 0 {
      buf[p] := '-';
      p := p + 1;
      assert buf[start..p] == written + ['-'];
    }
    buf[p] := '\0';
    assert Reversed(buf[start..p]) == Decimal(value);
    Reverse(buf, start, p);
    len := p - start;
  }

  lemma HasRoom(value: int, rest: nat, written: string)
    requires IsInteger(value) && Splits(Abs(value), 10, rest, written) && (rest != 0 || written == [])
    ensures |written| < 20
  {
    Lengths(value);
    SplitsLength(Abs(value), 10, rest, written);
  }

  lemma Signed(value: int, written: string)
    requires IsInteger(value) && Splits(Abs(value), 10, 0, written) && written != []
    ensures Decimal(value) == Reversed(if value < 0 then written + ['-'] else written) && |Decimal(value)| <= 20
  {
    Lengths(value);
    Finished(Abs(value), 10, written);
    ReversedAppend(written, '-');
  }

  lemma Finished(n: nat, base: nat, written: string)
    requires IsBase(base) && Splits(n, base, 0, written) && written != []
    ensures Reversed(written) == Numeral(n, base)
  {}

  /** `convertHex`. */
  method ConvertHex(buf: array<char>, start: nat, value: nat) returns (len: nat)
    requires IsAddress(value) && start + 16 < buf.Length
    modifies buf
    ensures len == |Numeral(value, 16)| && start + len < buf.Length
    ensures buf[start..start + len] == Numeral(value, 16) && buf[start + len] == '\0'
    ensures buf[..start] == old(buf[..start])
  {
    hide Numeral, Reversed, Splits;
    Lengths(value);
    SplitsStart(value, 16);
    var i := value;
    var p := start;
    var more := true;
    assert buf[start..p] == [];
    while more
      invariant start <= p < buf.Length && (more <==> i != 0 || p == start)
      invariant Splits(value, 16, i, buf[start..p])
      invariant buf[..start] == old(buf[..start])
      decreases more, i
    {
      ghost var rest, written := i, buf[start..p];
      SplitsLength(value, 16, rest, written);
      SplitsStep(value, 16, rest, written);
      var lsd := i % 16;
      i := i / 16;
      buf[p] := Digit(lsd);
      p := p + 1;
      assert buf[start..p] == written + [Digit(rest % 16)];
      SplitsLength(value, 16, i, buf[start..p]);
      more := i != 0;
    }
    Finished(value, 16, buf[start..p]);
    SplitsLength(value, 16, 0, buf[start..p]);
    buf[p] := '\0';
    assert Reversed(buf[start..p]) == Numeral(value, 16);
    Reverse(buf, start, p);
    len := p - start;
  }

  /** `FixedBuffer`. */
  class FixedBuffer {
    const data: array<char>
    var cur: nat

    ghost predicate Valid()
      reads this
    {
      cur < data.Length
    }

    ghost function Text(): string
      requires Valid()
      reads this, data
    {
      data[..cur]
    }

    constructor (size: nat)
      requires size > 0
      ensures Valid() && fresh(data) && data.Length == size && Text() == ""
    {
      data := new char[size];
      cur := 0;
    }

    function Avail(): int
      reads this
    {
      data.Length - cur
    }

    /** All of it or nothing. */
    method Append(s: string)
      requires Valid()
      modifies this, data
      ensures Valid() && Text() == Kept(old(Text()), s, data.Length)
      ensures Text() == old(Text()) + if old(Avail()) > |s| then s else ""
    {
      if Avail() > |s| {
        forall k | 0 <= k < |s| {
          data[cur + k] := s[k];
        }
        cur := cur + |s|;
        assert Text() == old(Text()) + s;
      }
    }

    method Reset()
      requires Valid()
      modifies this
      ensures Valid() && Text() == ""
    {
      cur := 0;
    }
  }

  /** What the stream is given. */
  datatype Item =
    | Bool(b: bool)
    | Char(c: char)
    | Chars(s: Option<string>)     // a null pointer is `None`
    | Str(text: string)
    | Integer(v: int)
    | Pointer(address: int)

  predicate IsItem(i: Item) { (i.Integer? ==> IsInteger(i.v)) && (i.Pointer? ==> IsAddress(i.address)) }

  /** How an item reads. */
  function Rendered(i: Item): string
    requires IsItem(i)
  {
    match i
    case Bool(b) => if b then "1" else "0"
    case Char(c) => [c]
    case Chars(s) => if s.Some? then s.value else "(null)"
    case Str(text) => text
    case Integer(v) => Decimal(v)
    case Pointer(address) => "0x" + Numeral(address, 16)
  }

  /** What a reader of the log makes of an item: text is itself, a truth value is 0 or 1, a number is read in
      decimal and an address, behind its prefix, in base 16. */
  lemma RenderedReadsBack(i: Item)
    requires IsItem(i)
    ensures match i
            case Bool(b) => DecimalValue(Rendered(i)) == (if b then 1 else 0)
            case Char(c) => Rendered(i) == [c]
            case Chars(s) => s != None ==> Rendered(i) == s.value
            case Str(text) => Rendered(i) == text
            case Integer(v) => IsDecimal(Rendered(i)) && DecimalValue(Rendered(i)) == v
            case Pointer(address) =>
              |Rendered(i)| > 2 && Rendered(i)[..2] == "0x" && IsNumeral(Rendered(i)[2..], 16) && Value(Rendered(i)[2..], 16) == address
  {
    match i {
      case Bool(b) => OneDigit(if b then 1 else 0, 10);
      case Integer(v) => DecimalReadsBack(v);
      case Pointer(address) =>
        NumeralOk(address, 16);
        assert Rendered(i)[2..] == Numeral(address, 16);
      case _ =>
    }
  }

  /** Text goes in whole if it leaves at least one byte free. */
  function Kept(before: string, s: string, size: nat): string {
    if size - |before| > |s| then before + s else before
  }

  /** A number goes in if there is room for any number. */
  function KeptNumber(before: string, s: string, size: nat): string {
    if size - |before| >= MAX_NUMERIC_SIZE then before + s else before
  }

  function KeptItem(before: string, i: Item, size: nat): string
    requires IsItem(i)
  {
    if i.Integer? || i.Pointer? then KeptNumber(before, Rendered(i), size) else Kept(before, Rendered(i), size)
  }

  /** The pieces that went in, one after the other, and nothing else. */
  function Pieces(before: string, items: seq<Item>, size: nat): seq<string>
    requires forall i :: i in items ==> IsItem(i)
    decreases |items|
  {
    if items == [] then []
    else
      var i := items[0];
      var rest := Pieces(KeptItem(before, i, size), items[1..], size);
      if |KeptItem(before, i, size)| == |before| then rest else [Rendered(i)] + rest
  }

  function Concat(pieces: seq<string>): string {
    if pieces == [] then "" else pieces[0] + Concat(pieces[1..])
  }

  function KeptItems(before: string, items: seq<Item>, size: nat): string
    requires forall i :: i in items ==> IsItem(i)
    decreases |items|
  {
    if items == [] then before else KeptItems(KeptItem(before, items[0], size), items[1..], size)
  }

  /** Through any items the text grows by whole pieces, in order, and one byte stays free. */
  lemma {:induction false} WholePieces(before: string, items: seq<Item>, size: nat)
    requires |before| < size && forall i :: i in items ==> IsItem(i)
    ensures KeptItems(before, items, size) == before + Concat(Pieces(before, items, size))
    ensures |KeptItems(before, items, size)| < size
    decreases |items|
  {
    hide KeptItem, Rendered, Concat;
    if items == [] {
      assert Concat([]) == "" by { ConcatNone(); }
    } else {
      var i, rest := items[0], items[1..];
      assert i in items;
      OneByteFree(before, i, size);
      var after := KeptItem(before, i, size);
      WholePieces(after, rest, size);
      if |after| != |before| {
        var tail := Pieces(after, rest, size);
        ConcatCons(Rendered(i), tail);
        assert before + Rendered(i) + Concat(tail) == before + (Rendered(i) + Concat(tail));
      } else {
        assert after == before;
      }
    }
  }

  lemma ConcatNone()
    ensures Concat([]) == ""
  {}

  lemma ConcatCons(piece: string, pieces: seq<string>)
    ensures Concat([piece] + pieces) == piece + Concat(pieces)
  {
    assert ([piece] + pieces)[1..] == pieces;
  }

  lemma OneByteFree(before: string, i: Item, size: nat)
    requires |before| < size && IsItem(i)
    ensures |KeptItem(before, i, size)| < size
    ensures KeptItem(before, i, size) == before || KeptItem(before, i, size) == before + Rendered(i)
    ensures i.Integer? || i.Pointer? ==> 1 <= |Rendered(i)| < MAX_NUMERIC_SIZE
  {
    if i.Integer? { Lengths(i.v); }
    if i.Pointer? { Lengths(i.address); }
  }

  class LogStream {
    const buffer: FixedBuffer

    ghost predicate Valid()
      reads this, buffer
    {
      buffer.Valid() && buffer.data.Length == SMALL_BUFFER
    }

    constructor ()
      ensures Valid() && fresh(buffer) && fresh(buffer.data) && buffer.Text() == ""
    {
      buffer := new FixedBuffer(SMALL_BUFFER);
    }

    method FormatInteger(v: int)
      requires Valid() && IsInteger(v)
      modifies buffer, buffer.data
      ensures Valid() && buffer.Text() == KeptNumber(old(buffer.Text()), Decimal(v), SMALL_BUFFER)
      ensures buffer.Text() == old(buffer.Text()) + if old(buffer.Avail()) >= 48 then Decimal(v) else ""
    {
      if buffer.Avail() >= MAX_NUMERIC_SIZE {
        ghost var before := buffer.Text();
        Lengths(v);
        var len := Convert(buffer.data, buffer.cur, v);
        Joined(buffer.data[..], before, Decimal(v));
        buffer.cur := buffer.cur + len;
      }
    }

    method WritePrefix()
      requires Valid() && buffer.Avail() >= 2
      modifies buffer.data
      ensures Valid() && buffer.data[..buffer.cur + 2] == old(buffer.Text()) + "0x"
    {
      var data, cur := buffer.data, buffer.cur;
      data[cur] := '0';
      data[cur + 1] := 'x';
    }

    method FormatPointer(address: nat)
      requires Valid() && IsAddress(address)
      modifies buffer, buffer.data
      ensures Valid() && buffer.Text() == KeptNumber(old(buffer.Text()), "0x" + Numeral(address, 16), SMALL_BUFFER)
      ensures buffer.Text() == old(buffer.Text()) + if old(buffer.Avail()) >= 48 then "0x" + Numeral(address, 16) else ""
    {
      if buffer.Avail() >= MAX_NUMERIC_SIZE {
        ghost var before := buffer.Text();
        Lengths(address);
        hide Numeral;
        WritePrefix();
        var len := ConvertHex(buffer.data, buffer.cur + 2, address);
        Joined(buffer.data[..], before + "0x", Numeral(address, 16));
        assert before + "0x" + Numeral(address, 16) == before + ("0x" + Numeral(address, 16));
        buffer.cur := buffer.cur + (len + 2);
      }
    }

    /** `operator<<` for each kind of item. */
    method Put(i: Item)
      requires Valid() && IsItem(i)
      modifies buffer, buffer.data
      ensures Valid() && buffer.Text() == KeptItem(old(buffer.Text()), i, SMALL_BUFFER)
    {
      match i {
        case Bool(b) => buffer.Append(if b then "1" else "0");
        case Char(c) => buffer.Append([c]);
        case Chars(s) => buffer.Append(if s.Some? then s.value else "(null)");
        case Str(text) => buffer.Append(text);
        case Integer(v) => FormatInteger(v);
        case Pointer(address) => FormatPointer(address);
      }
    }

    /** A whole log line: `stream << items[0] << items[1] << ...`. */
    method PutAll(items: seq<Item>)
      requires Valid() && forall i :: i in items ==> IsItem(i)
      modifies buffer, buffer.data
      ensures Valid() && buffer.Text() == KeptItems(old(buffer.Text()), items, SMALL_BUFFER)
    {
      for k := 0 to |items|
        invariant Valid() && KeptItems(buffer.Text(), items[k..], SMALL_BUFFER) == KeptItems(old(buffer.Text()), items, SMALL_BUFFER)
      {
        assert items[k..][0] == items[k] && items[k..][1..] == items[k + 1..];
        Put(items[k]);
      }
    }
  }

  lemma Joined(data: string, a: string, b: string)
    requires |a| + |b| <= |data| && data[..|a|] == a && data[|a|..|a| + |b|] == b
    ensures data[..|a| + |b|] == a + b
  {
    assert data[..|a| + |b|] == data[..|a|] + data[|a|..|a| + |b|];
  }
}
