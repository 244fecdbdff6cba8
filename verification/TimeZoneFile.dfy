/**
 The reading of a zone file in zing/base/TimeZone.cpp: the version 1 block of RFC 8536, sections 3.1 and 3.2,
 up to and including the abbreviations. Reading is proved to undo writing.
 */
module TimeZoneFile {
  import opened BigEndian
  import opened TimeZone
  import opened Types

  /** A local time type record, with `isDst` as the byte in the file. */
  datatype TypeRecord = TypeRecord(offset: int, isDst: byte, abbr: byte)

  /** What a version 1 block says; `unused` are the three counts that the reader ignores. */
  datatype Tables = Tables(
    version: byte,
    reserved: bytes,
    unused: seq<int>,
    times: seq<int>,
    indices: bytes,
    types: seq<TypeRecord>,
    chars: bytes)

  predicate Ok(t: Tables) {
    && |t.reserved| == 15 && |t.unused| == 3 && |t.indices| == |t.times|
    && (forall i :: 0 <= i < 3 ==> Fits(t.unused[i], 4))
    && (forall i :: 0 <= i < |t.times| ==> Fits(t.times[i], 4))
    && (forall i :: 0 <= i < |t.types| ==> Fits(t.types[i].offset, 4))
    && (forall i :: 0 <= i < |t.indices| ==> t.indices[i] as int < |t.types|)
    && Fits(|t.times|, 4) && Fits(|t.types|, 4) && Fits(|t.chars|, 4)
  }

  const MAGIC: bytes := [0x54, 0x5A, 0x69, 0x66]

  function Ints(s: seq<int>): bytes
    requires forall i :: 0 <= i < |s| ==> Fits(s[i], 4)
  {
    if s == [] then [] else Encode(s[0], 4) + Ints(s[1..])
  }

  function Record(r: TypeRecord): (s: bytes)
    requires Fits(r.offset, 4)
    ensures |s| == 6
  {
    Encode(r.offset, 4) + [r.isDst, r.abbr]
  }

  function Records(s: seq<TypeRecord>): bytes
    requires forall i :: 0 <= i < |s| ==> Fits(s[i].offset, 4)
  {
    if s == [] then [] else Record(s[0]) + Records(s[1..])
  }

  function Counts(t: Tables): seq<int>
    requires Ok(t)
  {
    t.unused + [|t.times|, |t.types|, |t.chars|]
  }

  /** The block, as a writer lays it out. */
  function Layout(t: Tables): bytes
    requires Ok(t)
  {
    MAGIC + ([t.version] + (t.reserved + (Ints(Counts(t)) +
      (Ints(t.times) + (t.indices + (Records(t.types) + t.chars))))))
  }

  function LocaltimeOf(r: TypeRecord): Localtime { Localtime(r.offset, r.isDst != 0, r.abbr as int) }

  /** The tables in memory: each transition with its local time, by the type that it starts. */
  function ZoneOf(t: Tables): (z: Zone)
    requires Ok(t)
    ensures z.Ok() <==> t.types != []
  {
    Zone(seq(|t.times|, i requires 0 <= i < |t.times| =>
           Transition(t.times[i], t.times[i] + t.types[t.indices[i]].offset, t.indices[i] as nat)),
         seq(|t.types|, i requires 0 <= i < |t.types| => LocaltimeOf(t.types[i])))
  }

  /** An open file: the bytes that have not been read yet. */
  class File {
    var left: bytes

    constructor (content: bytes)
      ensures left == content
    {
      left := content;
    }

    method ReadBytes(n: nat) returns (s: bytes)
      requires n <= |left|
      modifies this
      ensures s + left == old(left) && |s| == n
    {
      s := left[..n];
      left := left[n..];
    }

    method ReadInt32() returns (x: int)
      requires 4 <= |left|
      modifies this
      ensures Fits(x, 4) && Encode(x, 4) + left == old(left)
    {
      var s := ReadBytes(4);
      DecodeEncode(s);
      x := Decode(s);
    }

    method ReadUInt8() returns (x: byte)
      requires 1 <= |left|
      modifies this
      ensures [x] + left == old(left)
    {
      var s := ReadBytes(1);
      x := s[0];
    }

    /** The next integers are read one after the other. */
    method ReadInts(n: nat, ghost s: seq<int>, ghost rest: bytes) returns (r: seq<int>)
      requires |s| == n && (forall i :: 0 <= i < n ==> Fits(s[i], 4)) && left == Ints(s) + rest
      modifies this
      ensures r == s && left == rest
    {
      r := [];
      for i := 0 to n
        invariant r == s[..i] && left == Ints(s[i..]) + rest
      {
        ghost var y := s[i];
        assert s[i..][0] == y && s[i..][1..] == s[i + 1..];
        assert left == Encode(y, 4) + (Ints(s[i + 1..]) + rest);
        var x := ReadInt32();
        Front(x, left, y, Ints(s[i + 1..]) + rest);
        r := r + [x];
      }
    }

    method ReadRecords(n: nat, ghost s: seq<TypeRecord>, ghost rest: bytes) returns (r: seq<Localtime>)
      requires |s| == n && (forall i :: 0 <= i < n ==> Fits(s[i].offset, 4)) && left == Records(s) + rest
      modifies this
      ensures r == seq(n, i requires 0 <= i < n => LocaltimeOf(s[i])) && left == rest
    {
      r := [];
      for i := 0 to n
        invariant |r| == i && (forall k :: 0 <= k < i ==> r[k] == LocaltimeOf(s[k]))
        invariant left == Records(s[i..]) + rest
      {
        ghost var y, tail := s[i], Records(s[i + 1..]) + rest;
        assert s[i..][0] == y && s[i..][1..] == s[i + 1..];
        assert left == Encode(y.offset, 4) + ([y.isDst] + ([y.abbr] + tail));
        var gmtoff := ReadInt32();
        Front(gmtoff, left, y.offset, [y.isDst] + ([y.abbr] + tail));
        var isdst := ReadUInt8();
        assert ([isdst] + left)[0] == ([y.isDst] + ([y.abbr] + tail))[0];
        assert ([isdst] + left)[1..] == left && ([y.isDst] + ([y.abbr] + tail))[1..] == [y.abbr] + tail;
        var abbrind := ReadUInt8();
        assert ([abbrind] + left)[0] == ([y.abbr] + tail)[0];
        assert ([abbrind] + left)[1..] == left && ([y.abbr] + tail)[1..] == tail;
        r := r + [Localtime(gmtoff, isdst != 0, abbrind as int)];
      }
    }

    /** `readTimeZoneFile`: the tables of the block come out, with the local time of each transition. */
    method ReadTimeZoneFile(ghost t: Tables, ghost rest: bytes) returns (zone: Zone, abbreviation: bytes)
      requires Ok(t) && left == Layout(t) + rest
      modifies this
      ensures zone == ZoneOf(t) && abbreviation == t.chars && left == rest
    {
      hide Ints, Records, Layout;
      ghost var tail := Ints(t.times) + (t.indices + (Records(t.types) + (t.chars + rest)));
      Regroup(t, rest, tail);
      var head := ReadBytes(4);
      Split(head, left, MAGIC, [t.version] + (t.reserved + (Ints(Counts(t)) + tail)));
      assert head == MAGIC;
      var version := ReadBytes(1);
      Split(version, left, [t.version], t.reserved + (Ints(Counts(t)) + tail));
      var reserved := ReadBytes(15);
      Split(reserved, left, t.reserved, Ints(Counts(t)) + tail);
      var counts := ReadInts(6, Counts(t), tail);
      var timecnt, typecnt, charcnt := counts[3], counts[4], counts[5];
      var trans := ReadInts(timecnt, t.times, t.indices + (Records(t.types) + (t.chars + rest)));
      var localtimes := ReadBytes(timecnt);
      Split(localtimes, left, t.indices, Records(t.types) + (t.chars + rest));
      var types := ReadRecords(typecnt, t.types, t.chars + rest);
      var transitions := Joined(trans, localtimes, types, t);
      zone := Zone(transitions, types);
      abbreviation := ReadBytes(charcnt);
      Split(abbreviation, left, t.chars, rest);
    }
  }

  /** The third loop of `readTimeZoneFile`. */
  method Joined(trans: seq<int>, localtimes: bytes, types: seq<Localtime>, ghost t: Tables)
    returns (transitions: seq<Transition>)
    requires Ok(t) && trans == t.times && localtimes == t.indices && types == ZoneOf(t).localtimes
    ensures transitions == ZoneOf(t).transitions
  {
    transitions := [];
    for i := 0 to |trans|
      invariant |transitions| == i
      invariant forall k :: 0 <= k < i ==> transitions[k] == ZoneOf(t).transitions[k]
    {
      var localIdx := localtimes[i] as nat;
      transitions := transitions + [Transition(trans[i], trans[i] + types[localIdx].offset, localIdx)];
    }
  }

  lemma Split(a: bytes, b: bytes, c: bytes, d: bytes)
    requires a + b == c + d && |a| == |c|
    ensures a == c && b == d
  {
    assert a == (a + b)[..|a|] && c == (c + d)[..|a|];
    assert b == (a + b)[|a|..] && d == (c + d)[|a|..];
  }

  lemma Front(x: int, left: bytes, y: int, tail: bytes)
    requires Fits(x, 4) && Fits(y, 4) && Encode(x, 4) + left == Encode(y, 4) + tail
    ensures x == y && left == tail
  {
    Split(Encode(x, 4), left, Encode(y, 4), tail);
    EncodeDecode(x, 4);
    EncodeDecode(y, 4);
  }

  lemma Regroup(t: Tables, rest: bytes, tail: bytes)
    requires Ok(t) && tail == Ints(t.times) + (t.indices + (Records(t.types) + (t.chars + rest)))
    ensures Layout(t) + rest == MAGIC + ([t.version] + (t.reserved + (Ints(Counts(t)) + tail)))
  {
    hide Ints, Records, Counts;
  }
}
