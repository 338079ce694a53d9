/** The byte input the decoders consume: a byte sequence and a read position that only moves forward. */
module Streams {
  import opened Wrappers
  import opened JavaNum

  /** The unsigned 16-bit big-endian number at q. */
  function U16At(d: seq<byte>, q: int): int
    requires 0 <= q && q + 2 <= |d|
  {
    BE(d[q..q + 2])
  }

  /** The unsigned 16-bit little-endian number at q (`readShortLE`). */
  function U16LEAt(d: seq<byte>, q: int): int
    requires 0 <= q && q + 2 <= |d|
  {
    BE([d[q + 1], d[q]])
  }

  /** The unsigned 32-bit big-endian number at q. */
  function U32At(d: seq<byte>, q: int): int
    requires 0 <= q && q + 4 <= |d|
  {
    BE(d[q..q + 4])
  }

  /** The signed 32-bit big-endian number at q. */
  function S32At(d: seq<byte>, q: int): int32
    requires 0 <= q && q + 4 <= |d|
  {
    S32(U32At(d, q))
  }

  /** n unsigned 16-bit big-endian numbers starting at `start`. */
  function U16sAt(data: seq<byte>, start: int, n: nat): (r: seq<int>)
    requires 0 <= start && start + 2 * n <= |data|
    ensures |r| == n
  {
    seq(n, i requires 0 <= i < n => BE(data[start + 2 * i..start + 2 * i + 2]))
  }

  /** n unsigned 32-bit big-endian numbers starting at `start`. */
  function U32sAt(data: seq<byte>, start: int, n: nat): (r: seq<int>)
    requires 0 <= start && start + 4 * n <= |data|
    ensures |r| == n
  {
    seq(n, i requires 0 <= i < n => BE(data[start + 4 * i..start + 4 * i + 4]))
  }

  /** n signed 64-bit big-endian numbers starting at `start`. */
  function S64sAt(data: seq<byte>, start: int, n: nat): (r: seq<int>)
    requires 0 <= start && start + 8 * n <= |data|
    ensures |r| == n
  {
    seq(n, i requires 0 <= i < n => S64(BE(data[start + 8 * i..start + 8 * i + 8])))
  }

  /** What `read(byte[])` leaves in a fresh array of n bytes read from `start`: the bytes that are left, up to n,
      then zeros. */
  function Filled(data: seq<byte>, start: int, n: nat): (r: seq<byte>)
    requires 0 <= start
    ensures |r| == n
    ensures forall i :: 0 <= i < n ==> r[i] == if start + i < |data| then data[start + i] else 0
  {
    if start + n <= |data| then data[start..start + n]
    else if start <= |data| then data[start..] + seq(n - (|data| - start), _ => 0)
    else seq(n, _ => 0)
  }

  /** What n calls of `read()` return from `start` on: the bytes, then -1 for each call past the end. */
  function BytesOrEnd(data: seq<byte>, start: int, n: nat): (r: seq<int>)
    requires 0 <= start
    ensures |r| == n
    ensures forall i :: 0 <= i < n ==> -1 <= r[i] < 256
  {
    seq(n, i requires 0 <= i < n => if start + i < |data| then data[start + i] as int else -1)
  }

  /** An input stream over bytes: the whole profile, or a `ByteArrayInputStream(data, offset, data.length - offset)`
      over a tag's data. Reading at a negative position faults the way indexing the backing array does. */
  class ByteStream {
    const data: seq<byte>
    var pos: int

    /** A stream over `data` whose next byte is `data[offset]`. */
    constructor (data: seq<byte>, offset: int)
      ensures this.data == data && pos == offset
    {
      this.data := data;
      pos := offset;
    }

    /** The next n bytes are all there. */
    predicate CanRead(n: nat)
      reads this
    {
      0 <= pos && pos + n <= |data|
    }

    /** The stream reads what a stream at position x would: it is at x, or both are at or past the end. */
    predicate At(x: int)
      reads this
    {
      pos == x || (|data| <= x && |data| <= pos)
    }

    /** The next n bytes. */
    function Next(n: nat): (r: seq<byte>)
      reads this
      requires CanRead(n)
      ensures |r| == n
    {
      data[pos..pos + n]
    }

    /** `InputStream.read()`: the next byte, or -1 (and no movement) at the end of the data. */
    method Read() returns (r: Result<int>)
      modifies this
      ensures old(pos) < 0 ==> r == Err(IndexOutOfBounds)
      ensures 0 <= old(pos) < |data| ==> r == Ok(data[old(pos)]) && pos == old(pos) + 1
      ensures |data| <= old(pos) ==> r == Ok(-1) && pos == old(pos)
    {
      if pos < 0 {
        return Err(IndexOutOfBounds);
      }
      if pos < |data| {
        r := Ok(data[pos]);
        pos := pos + 1;
      } else {
        r := Ok(-1);
      }
    }

    /** Reads exactly n bytes (`IOutils.readFully` and the fixed-width reads); fails when the data ends first.
        Reading nothing never fails. */
    method ReadBytes(n: nat) returns (r: Result<seq<byte>>)
      modifies this
      ensures n == 0 ==> r == Ok([]) && pos == old(pos)
      ensures 0 < n && old(pos) < 0 ==> r == Err(IndexOutOfBounds)
      ensures 0 < n && 0 <= old(pos) && |data| < old(pos) + n ==> r == Err(EndOfData)
      ensures r.Ok? <==> n == 0 || old(CanRead(n))
      ensures r.Ok? && 0 < n ==> r.value == old(Next(n)) && pos == old(pos) + n
    {
      if n == 0 {
        return Ok([]);
      }
      if pos < 0 {
        return Err(IndexOutOfBounds);
      }
      if |data| < pos + n {
        pos := |data|;
        return Err(EndOfData);
      }
      r := Ok(data[pos..pos + n]);
      pos := pos + n;
    }

    /** `InputStream.read(byte[])` into a fresh array of n bytes: copies the bytes that are left, up to n,
        and leaves the rest of the array zero. */
    method ReadAvailable(n: nat) returns (r: Result<seq<byte>>)
      modifies this
      ensures 0 < n && old(pos) < 0 ==> r == Err(IndexOutOfBounds)
      ensures r.Ok? <==> n == 0 || 0 <= old(pos)
      ensures n == 0 ==> r == Ok([]) && pos == old(pos)
      ensures r.Ok? && 0 < n ==> r.value == Filled(data, old(pos), n) && pos == old(AfterReads(n))
    {
      if n == 0 {
        return Ok([]);
      }
      if pos < 0 {
        return Err(IndexOutOfBounds);
      }
      if pos + n <= |data| {
        r := Ok(data[pos..pos + n]);
        pos := pos + n;
      } else if pos <= |data| {
        r := Ok(data[pos..] + seq(n - (|data| - pos), _ => 0));
        pos := |data|;
      } else {
        r := Ok(seq(n, _ => 0));
      }
    }

    /** `IOutils.readShortBE`: an unsigned 16-bit big-endian number. */
    method ReadU16BE() returns (r: Result<int>)
      modifies this
      ensures r.Ok? <==> old(CanRead(2))
      ensures r.Ok? ==> r.value == BE(old(Next(2))) && 0 <= r.value < 0x1_0000 && pos == old(pos) + 2
    {
      var b :- ReadBytes(2);
      return Ok(BE(b));
    }

    /** `IOutils.readShortLE`: an unsigned 16-bit little-endian number. */
    method ReadU16LE() returns (r: Result<int>)
      modifies this
      ensures r.Ok? <==> old(CanRead(2))
      ensures r.Ok? ==> r.value == BE([old(Next(2))[1], old(Next(2))[0]]) && 0 <= r.value < 0x1_0000 && pos == old(pos) + 2
    {
      var b :- ReadBytes(2);
      return Ok(BE([b[1], b[0]]));
    }

    /** `IOutils.readIntBE`: a signed 32-bit big-endian number. */
    method ReadS32BE() returns (r: Result<int32>)
      modifies this
      ensures r.Ok? <==> old(CanRead(4))
      ensures r.Ok? ==> r.value == S32(BE(old(Next(4)))) && pos == old(pos) + 4
    {
      var b :- ReadBytes(4);
      return Ok(S32(BE(b)));
    }

    /** `IOutils.readUnsignedIntBE`: an unsigned 32-bit big-endian number. */
    method ReadU32BE() returns (r: Result<int>)
      modifies this
      ensures r.Ok? <==> old(CanRead(4))
      ensures r.Ok? ==> r.value == BE(old(Next(4))) && 0 <= r.value < TWO_32 && pos == old(pos) + 4
      ensures r.Err? ==> r.error == (if old(pos) < 0 then IndexOutOfBounds else EndOfData)
    {
      var b :- ReadBytes(4);
      return Ok(BE(b));
    }

    /** `IOutils.readLongBE`: a signed 64-bit big-endian number. */
    method ReadS64BE() returns (r: Result<int64>)
      modifies this
      ensures r.Ok? <==> old(CanRead(8))
      ensures r.Ok? ==> r.value == S64(BE(old(Next(8)))) && pos == old(pos) + 8
    {
      var b :- ReadBytes(8);
      return Ok(S64(BE(b)));
    }

    /** Where n calls of `read()` leave the position: they stop moving it at the end of the data. */
    function AfterReads(n: nat): int
      reads this
    {
      if pos >= |data| then pos else if pos + n <= |data| then pos + n else |data|
    }

    /** n calls of `read()`, as the readers that keep -1 for a missing byte make them. */
    method ReadBytesOrEnd(n: nat) returns (r: Result<seq<int>>)
      modifies this
      ensures r.Ok? <==> n == 0 || 0 <= old(pos)
      ensures r.Ok? && 0 < n ==> r.value == BytesOrEnd(data, old(pos), n) && pos == old(AfterReads(n))
      ensures n == 0 ==> r == Ok([]) && pos == old(pos)
    {
      if n == 0 {
        return Ok([]);
      }
      ghost var p := pos;
      var s := [];
      for i := 0 to n
        invariant i > 0 ==> 0 <= p
        invariant i > 0 ==> s == BytesOrEnd(data, p, i)
        invariant i == 0 ==> s == [] && pos == p
        invariant i > 0 ==> pos == (if p >= |data| then p else if p + i <= |data| then p + i else |data|)
      {
        var b :- Read();
        s := s + [b];
      }
      return Ok(s);
    }

    /** n calls of `readShortBE`. */
    method ReadU16s(n: nat) returns (r: Result<seq<int>>)
      modifies this
      ensures r.Ok? <==> n == 0 || old(CanRead(2 * n))
      ensures r.Ok? && 0 < n ==> r.value == U16sAt(data, old(pos), n) && pos == old(pos) + 2 * n
      ensures n == 0 ==> r == Ok([]) && pos == old(pos)
    {
      if n == 0 {
        return Ok([]);
      }
      ghost var p := pos;
      var s := [];
      for i := 0 to n
        invariant pos == p + 2 * i
        invariant i > 0 ==> 0 <= p && p + 2 * i <= |data| && s == U16sAt(data, p, i)
        invariant i == 0 ==> s == []
      {
        var x :- ReadU16BE();
        s := s + [x];
      }
      return Ok(s);
    }

    /** n calls of `readUnsignedIntBE`. */
    method ReadU32s(n: nat) returns (r: Result<seq<int>>)
      modifies this
      ensures r.Ok? <==> n == 0 || old(CanRead(4 * n))
      ensures r.Ok? && 0 < n ==> r.value == U32sAt(data, old(pos), n) && pos == old(pos) + 4 * n
      ensures n == 0 ==> r == Ok([]) && pos == old(pos)
    {
      if n == 0 {
        return Ok([]);
      }
      ghost var p := pos;
      var s := [];
      for i := 0 to n
        invariant pos == p + 4 * i
        invariant i > 0 ==> 0 <= p && p + 4 * i <= |data| && s == U32sAt(data, p, i)
        invariant i == 0 ==> s == []
      {
        var x :- ReadU32BE();
        s := s + [x];
      }
      return Ok(s);
    }

    /** n calls of `readLongBE`. */
    method ReadS64s(n: nat) returns (r: Result<seq<int>>)
      modifies this
      ensures r.Ok? <==> n == 0 || old(CanRead(8 * n))
      ensures r.Ok? && 0 < n ==> r.value == S64sAt(data, old(pos), n) && pos == old(pos) + 8 * n
      ensures n == 0 ==> r == Ok([]) && pos == old(pos)
    {
      if n == 0 {
        return Ok([]);
      }
      ghost var p := pos;
      var s := [];
      for i := 0 to n
        invariant pos == p + 8 * i
        invariant i > 0 ==> 0 <= p && p + 8 * i <= |data| && s == S64sAt(data, p, i)
        invariant i == 0 ==> s == []
      {
        var x :- ReadS64BE();
        s := s + [x];
      }
      return Ok(s);
    }
  }
}
