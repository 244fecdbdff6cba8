/**
 zing/net/Buffer.h and zing/net/Buffer.cpp: a byte array with the readable bytes in the middle. Every method
 is proved against the sequence of readable bytes.
 */
module Buffer {
  import opened Types
  import opened BigEndian

  const CHEAP_PREPEND: nat := 8
  const INITIAL_SIZE: nat := 1024
  const EXTRA: nat := 65536
  const INT_MAX: nat := 0x7FFF_FFFF

  const CR: byte := 13
  const LF: byte := 10

  /** A result of readv(2): an error, or the bytes that arrived. */
  type Arrived = Option<bytes>

  predicate CrlfAt(s: bytes, i: int) { 0 <= i && i + 1 < |s| && s[i] == CR && s[i + 1] == LF }

  class Buffer {
    var buffer: array<byte>
    var readerIndex: nat
    var writerIndex: nat

    ghost predicate Valid()
      reads this
    {
      readerIndex <= writerIndex <= buffer.Length && CHEAP_PREPEND <= buffer.Length
    }

    ghost function Contents(): bytes
      requires Valid()
      reads this, buffer
    {
      buffer[readerIndex..writerIndex]
    }

    function WritableBytes(): nat
      requires Valid()
      reads this
    {
      buffer.Length - writerIndex
    }

    constructor (initialSize: nat)
      ensures Valid() && fresh(buffer) && Contents() == [] && WritableBytes() == initialSize
      ensures readerIndex == CHEAP_PREPEND
    {
      buffer := new byte[CHEAP_PREPEND + initialSize];
      readerIndex, writerIndex := CHEAP_PREPEND, CHEAP_PREPEND;
    }

    method Retrieve(len: nat)
      requires Valid() && len <= |Contents()|
      modifies this`readerIndex, this`writerIndex
      ensures Valid() && Contents() == old(Contents())[len..]
    {
      if len < writerIndex - readerIndex {
        readerIndex := readerIndex + len;
      } else {
        RetrieveAll();
      }
    }

    method RetrieveAll()
      requires Valid()
      modifies this`readerIndex, this`writerIndex
      ensures Valid() && Contents() == [] && readerIndex == CHEAP_PREPEND
    {
      readerIndex, writerIndex := CHEAP_PREPEND, CHEAP_PREPEND;
    }

    method RetrieveAsString(len: nat) returns (s: bytes)
      requires Valid() && len <= |Contents()|
      modifies this`readerIndex, this`writerIndex
      ensures Valid() && s + Contents() == old(Contents()) && |s| == len
    {
      s := buffer[readerIndex..readerIndex + len];
      Retrieve(len);
    }

    method Unwrite(len: nat)
      requires Valid() && len <= |Contents()|
      modifies this`writerIndex
      ensures Valid() && Contents() == old(Contents())[..|old(Contents())| - len]
    {
      writerIndex := writerIndex - len;
    }

    /** The readable bytes move down to the start; source and target may overlap. */
    method Compact()
      requires Valid() && CHEAP_PREPEND < readerIndex
      modifies this`readerIndex, this`writerIndex, buffer
      ensures Valid() && Contents() == old(Contents()) && readerIndex == CHEAP_PREPEND
    {
      var readable := writerIndex - readerIndex;
      ghost var s := Contents();
      for i := 0 to readable
        invariant buffer[CHEAP_PREPEND..CHEAP_PREPEND + i] == s[..i]
        invariant buffer[readerIndex + i..writerIndex] == s[i..]
        modifies buffer
      {
        assert buffer[readerIndex + i] == buffer[readerIndex + i..writerIndex][0] == s[i];
        assert forall k :: readerIndex + i + 1 <= k < writerIndex ==> buffer[k] == buffer[readerIndex + i..writerIndex][k - readerIndex - i];
        buffer[CHEAP_PREPEND + i] := buffer[readerIndex + i];
      }
      readerIndex := CHEAP_PREPEND;
      writerIndex := readerIndex + readable;
    }

    /** `buffer_.resize`, to a larger size. */
    method Resize(size: nat)
      requires Valid() && size >= buffer.Length
      modifies this`buffer
      ensures Valid() && fresh(buffer) && buffer.Length == size && Contents() == old(Contents())
      ensures buffer[..old(buffer.Length)] == old(buffer[..])
    {
      var a := new byte[size];
      for i := 0 to buffer.Length
        invariant a[..i] == buffer[..i]
        modifies a
      {
        a[i] := buffer[i];
      }
      assert a[..buffer.Length] == buffer[..];
      assert a[readerIndex..writerIndex] == a[..buffer.Length][readerIndex..writerIndex];
      buffer := a;
    }

    /** Space is found in front of the data if there is enough, and by growing otherwise. */
    method MakeSpace(len: nat)
      requires Valid() && WritableBytes() < len
      modifies this, buffer
      ensures Valid() && Contents() == old(Contents()) && WritableBytes() >= len
      ensures if old(WritableBytes() + readerIndex) < len + CHEAP_PREPEND
              then fresh(buffer) && buffer.Length == old(writerIndex) + len && readerIndex == old(readerIndex)
              else buffer == old(buffer) && readerIndex == CHEAP_PREPEND
    {
      if WritableBytes() + readerIndex < len + CHEAP_PREPEND {
        Resize(writerIndex + len);
      } else {
        assert CHEAP_PREPEND < readerIndex;
        Compact();
      }
    }

    method EnsureWritableBytes(len: nat)
      requires Valid()
      modifies this, buffer
      ensures Valid() && Contents() == old(Contents()) && WritableBytes() >= len
      ensures buffer == old(buffer) || fresh(buffer)
      ensures old(WritableBytes()) >= len ==> buffer == old(buffer) && unchanged(this) && unchanged(buffer)
      ensures readerIndex == old(readerIndex) || readerIndex == CHEAP_PREPEND
      ensures buffer.Length == old(buffer.Length) || buffer.Length == old(writerIndex) + len
    {
      if WritableBytes() < len {
        MakeSpace(len);
      }
    }

    /** `std::copy` into the array. */
    method Write(data: bytes, start: nat)
      requires Valid() && start + |data| <= buffer.Length
      modifies buffer
      ensures buffer[start..start + |data|] == data
      ensures buffer[..start] == old(buffer[..start]) && buffer[start + |data|..] == old(buffer[start + |data|..])
    {
      for i := 0 to |data|
        invariant buffer[start..start + i] == data[..i]
        invariant buffer[..start] == old(buffer[..start]) && buffer[start + |data|..] == old(buffer[start + |data|..])
      {
        buffer[start + i] := data[i];
      }
    }

    /** Bytes are put behind the readable ones, by `std::copy` or by the kernel. */
    method Fill(data: bytes)
      requires Valid() && |data| <= WritableBytes()
      modifies buffer
      ensures buffer[readerIndex..writerIndex + |data|] == old(Contents()) + data
    {
      ghost var s := Contents();
      Write(data, writerIndex);
      assert buffer[readerIndex..writerIndex] == buffer[..writerIndex][readerIndex..] == s;
      assert buffer[readerIndex..writerIndex + |data|]
          == buffer[readerIndex..writerIndex] + buffer[writerIndex..writerIndex + |data|];
    }

    method Append(data: bytes)
      requires Valid()
      modifies this, buffer
      ensures Valid() && Contents() == old(Contents()) + data
      ensures buffer == old(buffer) || fresh(buffer)
      ensures old(WritableBytes()) >= |data| ==> buffer == old(buffer) && readerIndex == old(readerIndex)
    {
      EnsureWritableBytes(|data|);
      Fill(data);
      HasWritten(|data|);
    }

    /** What was put behind the readable bytes joins them. */
    method HasWritten(len: nat)
      requires Valid() && len <= WritableBytes()
      modifies this`writerIndex
      ensures Valid() && Contents() == old(buffer[readerIndex..writerIndex + len])
    {
      writerIndex := writerIndex + len;
    }

    /** Room in front is not made: the caller asserts that there is some. */
    method Prepend(data: bytes)
      requires Valid() && |data| <= readerIndex
      modifies this`readerIndex, buffer
      ensures Valid() && Contents() == data + old(Contents()) && readerIndex == old(readerIndex) - |data|
    {
      ghost var s := Contents();
      readerIndex := readerIndex - |data|;
      ghost var start := readerIndex + |data|;
      assert s == buffer[start..][..writerIndex - start];
      Write(data, readerIndex);
      assert buffer[start..writerIndex] == buffer[start..][..writerIndex - start] == s;
      assert buffer[readerIndex..writerIndex] == buffer[readerIndex..start] + buffer[start..writerIndex];
    }

    /** A new array with just enough room; `toStringPiece` has an `int` for the length. */
    method Shrink(reserve: nat)
      requires Valid() && |Contents()| <= INT_MAX
      modifies this
      ensures Valid() && fresh(buffer) && Contents() == old(Contents())
      ensures WritableBytes() >= reserve && readerIndex == CHEAP_PREPEND
      ensures buffer.Length <= CHEAP_PREPEND + INITIAL_SIZE || buffer.Length == CHEAP_PREPEND + |Contents()| + reserve
    {
      var other := new Buffer(INITIAL_SIZE);
      other.EnsureWritableBytes(writerIndex - readerIndex + reserve);
      other.Append(buffer[readerIndex..writerIndex]);
      buffer, readerIndex, writerIndex := other.buffer, other.readerIndex, other.writerIndex;
    }

    /** The kernel fills the writable bytes first and then, if they are few, the buffer on the stack. */
    method ReadFd(arrived: Arrived) returns (n: int)
      requires Valid()
      requires arrived.Some? ==> |arrived.value| <= WritableBytes() + (if WritableBytes() < EXTRA then EXTRA else 0)
      modifies this, buffer
      ensures Valid() && (buffer == old(buffer) || fresh(buffer))
      ensures match arrived
              case None => n < 0 && Contents() == old(Contents())
              case Some(data) => n == |data| && Contents() == old(Contents()) + data
    {
      match arrived {
        case None =>
          n := -1;
        case Some(data) =>
          var writable := WritableBytes();
          n := |data|;
          if n <= writable {
            Fill(data);
            HasWritten(n);
          } else {
            Fill(data[..writable]);
            var extrabuf := data[writable..];
            writerIndex := buffer.Length;
            assert data == data[..writable] + extrabuf;
            Append(extrabuf);
          }
      }
    }

    // ---------------------------------------------------------------- integers

    method AppendInt(x: int, size: nat)
      requires Valid() && Fits(x, size)
      modifies this, buffer
      ensures Valid() && Contents() == old(Contents()) + Encode(x, size)
      ensures buffer == old(buffer) || fresh(buffer)
    {
      Append(Encode(x, size));
    }

    method PrependInt(x: int, size: nat)
      requires Valid() && Fits(x, size) && size <= readerIndex
      modifies this`readerIndex, buffer
      ensures Valid() && Contents() == Encode(x, size) + old(Contents())
    {
      Prepend(Encode(x, size));
    }

    method PeekInt(size: nat) returns (x: int)
      requires Valid() && size <= |Contents()|
      ensures Fits(x, size) && Encode(x, size) == Contents()[..size]
      ensures forall y :: Fits(y, size) && Encode(y, size) == Contents()[..size] ==> x == y
    {
      var s := buffer[readerIndex..readerIndex + size];
      assert s == Contents()[..size];
      x := Decode(s);
      DecodeEncode(s);
      forall y | Fits(y, size) && Encode(y, size) == s ensures x == y { EncodeDecode(y, size); }
    }

    method ReadInt(size: nat) returns (x: int)
      requires Valid() && size <= |Contents()|
      modifies this`readerIndex, this`writerIndex
      ensures Valid() && Fits(x, size) && Encode(x, size) + Contents() == old(Contents())
      ensures forall y :: Fits(y, size) && Encode(y, size) == old(Contents())[..size] ==> x == y
    {
      x := PeekInt(size);
      Retrieve(size);
    }

    // ---------------------------------------------------------------- searching

    /** `findCRLF(start)`, as an offset from `peek()`: the first one, if any. */
    method FindCRLF(start: nat) returns (r: Option<nat>)
      requires Valid() && start <= |Contents()|
      ensures match r
              case Some(i) => start <= i && CrlfAt(Contents(), i) && forall j :: start <= j < i ==> !CrlfAt(Contents(), j)
              case None => forall j :: start <= j ==> !CrlfAt(Contents(), j)
    {
      var i := readerIndex + start;
      while i + 1 < writerIndex
        invariant readerIndex + start <= i <= writerIndex
        invariant forall j :: start <= j < i - readerIndex ==> !CrlfAt(Contents(), j)
      {
        if buffer[i] == CR && buffer[i + 1] == LF {
          return Some(i - readerIndex);
        }
        i := i + 1;
      }
      r := None;
    }

    /** `findEOL(start)`. */
    method FindEOL(start: nat) returns (r: Option<nat>)
      requires Valid() && start <= |Contents()|
      ensures match r
              case Some(i) => start <= i < |Contents()| && Contents()[i] == LF && LF !in Contents()[start..i]
              case None => LF !in Contents()[start..]
    {
      var i := readerIndex + start;
      while i < writerIndex
        invariant readerIndex + start <= i <= writerIndex
        invariant forall j :: readerIndex + start <= j < i ==> buffer[j] != LF
      {
        if buffer[i] == LF {
          return Some(i - readerIndex);
        }
        i := i + 1;
      }
      r := None;
    }
  }
}
