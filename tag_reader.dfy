/** The tag readers: each decodes one tag type's payload from a stream positioned just after the payload's
    4-byte type signature, reading the reserved field first. The layouts are those of section 10 of ICC.1:2010,
    with the deviations the implementation makes (a 65535 divisor for s15Fixed16Number, four-byte 16-bit CLUT cells,
    names read back to back). Every reader is specified by the bytes at the stream position `p` where it starts. */
module TagReaders {
  import opened Wrappers
  import opened JavaNum
  import opened Streams
  import opened TagTypes
  import opened Curves
  import opened DateTimes
  import opened Tags

  /** `read_s15Fixed16` and `read_u16Fixed16` of a raw `readIntBE` value: the signed raw value over 65535. */
  function Fixed(raw: int): real
  {
    raw as real / 65535.0
  }

  /** The fixed-point number at q. */
  function FixedAt(d: seq<byte>, q: int): real
    requires 0 <= q && q + 4 <= |d|
  {
    Fixed(S32At(d, q))
  }

  /** n consecutive fixed-point numbers from q on. */
  function FixedsAt(d: seq<byte>, q: int, n: nat): (r: seq<real>)
    requires n > 0 ==> 0 <= q && q + 4 * n <= |d|
    ensures |r| == n
  {
    seq(n, i requires 0 <= i < n => FixedAt(d, q + 4 * i))
  }

  /** The raw value 0x00010000, which section 4.6 of ICC.1:2010 defines as 1.0, decodes to 65536/65535; a raw value
      decodes to the standard's raw/65536 only when it is 0. */
  lemma FixedDivisor(raw: int)
    ensures Fixed(raw) * 65535.0 == raw as real
    ensures Fixed(raw) == raw as real / 65536.0 <==> raw == 0
    ensures Fixed(0x1_0000) > 1.0
  {
    if Fixed(raw) == raw as real / 65536.0 {
      assert raw as real * 65536.0 == raw as real * 65535.0;
    }
  }

  /** The length a reader allocates from the tag length: the Java int `(length - header) / width`. */
  function Count(length: int32, header: int, width: int): int
    requires width > 0
  {
    JavaDiv(S32(length - header), width)
  }

  /** `read_s15Fixed16` / `read_u16Fixed16`: four bytes, read as a signed big-endian int, over 65535. */
  method ReadFixed(input: ByteStream) returns (r: Result<real>)
    modifies input
    ensures r.Ok? <==> old(input.CanRead(4))
    ensures r.Ok? ==> r.value == FixedAt(input.data, old(input.pos)) && input.pos == old(input.pos) + 4
  {
    var raw :- input.ReadS32BE();
    return Ok(Fixed(raw));
  }

  /** n calls of `read_s15Fixed16`. */
  method ReadFixeds(input: ByteStream, n: nat) returns (r: Result<seq<real>>)
    modifies input
    ensures r.Ok? <==> n == 0 || old(input.CanRead(4 * n))
    ensures r.Ok? ==> r.value == FixedsAt(input.data, old(input.pos), n) && input.pos == old(input.pos) + 4 * n
  {
    ghost var p := input.pos;
    var s := [];
    for i := 0 to n
      invariant input.pos == p + 4 * i
      invariant i > 0 ==> 0 <= p && p + 4 * i <= |input.data|
      invariant s == FixedsAt(input.data, p, i)
    {
      var x :- ReadFixed(input);
      s := s + [x];
    }
    return Ok(s);
  }

  /** `SignatureReader.read`: the reserved field and one unsigned 32-bit signature. */
  method ReadSignature(tagType: TagType, input: ByteStream) returns (r: Result<Tag>)
    modifies input
    ensures r.Ok? <==> old(input.CanRead(8))
    ensures r.Ok? ==> var p := old(input.pos);
      r.value == Signature(tagType, U32At(input.data, p), U32At(input.data, p + 4)) && input.pos == p + 8
  {
    var reserved :- input.ReadU32BE();
    var signature :- input.ReadU32BE();
    return Ok(Signature(tagType, reserved, signature));
  }

  /** `DateTimeReader.read`: the reserved field and a dateTimeNumber. */
  method ReadDateTime(tagType: TagType, input: ByteStream) returns (r: Result<Tag>)
    modifies input
    ensures r.Ok? <==> old(input.CanRead(16))
    ensures r.Ok? ==> var p := old(input.pos);
      r.value == DateTime(tagType, U32At(input.data, p), Decode(input.data[p + 4..p + 16])) && input.pos == p + 16
  {
    var reserved :- input.ReadU32BE();
    var dateTime :- DateTimes.Read(input);
    return Ok(DateTime(tagType, reserved, dateTime));
  }

  /** `MeasurementReader.read`: observer, a three-number XYZ backing, geometry, flare and illuminant, 32 bytes. */
  method ReadMeasurement(tagType: TagType, input: ByteStream) returns (r: Result<Tag>)
    modifies input
    ensures r.Ok? <==> old(input.CanRead(32))
    ensures r.Ok? ==> var p := old(input.pos); var d := input.data;
      r.value == Measurement(tagType, U32At(d, p), S32At(d, p + 4), FixedsAt(d, p + 8, 3), S32At(d, p + 20),
                             FixedAt(d, p + 24), S32At(d, p + 28)) && input.pos == p + 32
  {
    var reserved :- input.ReadU32BE();
    var observer :- input.ReadS32BE();
    var xyz :- ReadFixeds(input, 3);
    var geometry :- input.ReadS32BE();
    var flare :- ReadFixed(input);
    var illuminant :- input.ReadS32BE();
    return Ok(Measurement(tagType, reserved, observer, xyz, geometry, flare, illuminant));
  }

  /** `ViewingConditionsReader.read`: three illuminant and three surround numbers, then the illuminant type. */
  method ReadViewingConditions(tagType: TagType, input: ByteStream) returns (r: Result<Tag>)
    modifies input
    ensures r.Ok? <==> old(input.CanRead(32))
    ensures r.Ok? ==> var p := old(input.pos); var d := input.data;
      r.value == ViewingConditions(tagType, U32At(d, p), FixedsAt(d, p + 4, 3), FixedsAt(d, p + 16, 3),
                                   S32At(d, p + 28)) && input.pos == p + 32
  {
    var reserved :- input.ReadU32BE();
    var illuminant :- ReadFixeds(input, 3);
    var surround :- ReadFixeds(input, 3);
    var illuminantType :- input.ReadS32BE();
    return Ok(ViewingConditions(tagType, reserved, illuminant, surround, illuminantType));
  }

  /** `S15Fixed16ArrayReader.read` and `U16Fixed16ArrayReader.read`, which differ only in the helper they call,
      and the two helpers compute the same value: (length - 8) / 4 fixed-point numbers in an s15Fixed16 array tag. */
  method ReadFixedArray(tagType: TagType, length: int32, input: ByteStream) returns (r: Result<Tag>)
    modifies input
    ensures var n := Count(length, 8, 4);
      r.Ok? <==> old(input.CanRead(4)) && 0 <= n && old(input.CanRead(4 + 4 * n))
    ensures old(input.CanRead(4)) && Count(length, 8, 4) < 0 ==> r == Err(NegativeArraySize)
    ensures r.Ok? ==> var p := old(input.pos); var n := Count(length, 8, 4);
      r.value == S15Fixed16Array(tagType, U32At(input.data, p), FixedsAt(input.data, p + 4, n)) && input.pos == p + 4 + 4 * n
  {
    var reserved :- input.ReadU32BE();
    var count := Count(length, 8, 4);
    if count < 0 {
      return Err(NegativeArraySize);
    }
    var values :- ReadFixeds(input, count);
    return Ok(S15Fixed16Array(tagType, reserved, values));
  }

  /** `UInt16ArrayReader.read`: (length - 8) / 2 unsigned 16-bit numbers. */
  method ReadUInt16Array(tagType: TagType, length: int32, input: ByteStream) returns (r: Result<Tag>)
    modifies input
    ensures var n := Count(length, 8, 2);
      r.Ok? <==> old(input.CanRead(4)) && 0 <= n && old(input.CanRead(4 + 2 * n))
    ensures old(input.CanRead(4)) && Count(length, 8, 2) < 0 ==> r == Err(NegativeArraySize)
    ensures r.Ok? ==> var p := old(input.pos); var n := Count(length, 8, 2);
      r.value.UInt16Array? && r.value.tagType == tagType && r.value.reserved == U32At(input.data, p) &&
      |r.value.values| == n && (n > 0 ==> r.value.values == U16sAt(input.data, p + 4, n)) && input.pos == p + 4 + 2 * n
  {
    var reserved :- input.ReadU32BE();
    var count := Count(length, 8, 2);
    if count < 0 {
      return Err(NegativeArraySize);
    }
    var values :- input.ReadU16s(count);
    return Ok(UInt16Array(tagType, reserved, values));
  }

  /** `UInt32ArrayReader.read`: (length - 8) / 4 unsigned 32-bit numbers. */
  method ReadUInt32Array(tagType: TagType, length: int32, input: ByteStream) returns (r: Result<Tag>)
    modifies input
    ensures var n := Count(length, 8, 4);
      r.Ok? <==> old(input.CanRead(4)) && 0 <= n && old(input.CanRead(4 + 4 * n))
    ensures old(input.CanRead(4)) && Count(length, 8, 4) < 0 ==> r == Err(NegativeArraySize)
    ensures r.Ok? ==> var p := old(input.pos); var n := Count(length, 8, 4);
      r.value.UInt32Array? && r.value.tagType == tagType && r.value.reserved == U32At(input.data, p) &&
      |r.value.values| == n && (n > 0 ==> r.value.values == U32sAt(input.data, p + 4, n)) && input.pos == p + 4 + 4 * n
  {
    var reserved :- input.ReadU32BE();
    var count := Count(length, 8, 4);
    if count < 0 {
      return Err(NegativeArraySize);
    }
    var values :- input.ReadU32s(count);
    return Ok(UInt32Array(tagType, reserved, values));
  }

  /** `UInt64ArrayReader.read`: (length - 8) / 8 numbers, each read as a signed Java long. */
  method ReadUInt64Array(tagType: TagType, length: int32, input: ByteStream) returns (r: Result<Tag>)
    modifies input
    ensures var n := Count(length, 8, 8);
      r.Ok? <==> old(input.CanRead(4)) && 0 <= n && old(input.CanRead(4 + 8 * n))
    ensures old(input.CanRead(4)) && Count(length, 8, 8) < 0 ==> r == Err(NegativeArraySize)
    ensures r.Ok? ==> var p := old(input.pos); var n := Count(length, 8, 8);
      r.value.UInt64Array? && r.value.tagType == tagType && r.value.reserved == U32At(input.data, p) &&
      |r.value.values| == n && (n > 0 ==> r.value.values == S64sAt(input.data, p + 4, n)) && input.pos == p + 4 + 8 * n
  {
    var reserved :- input.ReadU32BE();
    var count := Count(length, 8, 8);
    if count < 0 {
      return Err(NegativeArraySize);
    }
    var values :- input.ReadS64s(count);
    return Ok(UInt64Array(tagType, reserved, values));
  }

  /** `UInt8ArrayReader.read`: length - 8 calls of `read()`, which give -1 once the data has ended. */
  method ReadUInt8Array(tagType: TagType, length: int32, input: ByteStream) returns (r: Result<Tag>)
    modifies input
    ensures r.Ok? <==> old(input.CanRead(4)) && 0 <= S32(length - 8)
    ensures old(input.CanRead(4)) && S32(length - 8) < 0 ==> r == Err(NegativeArraySize)
    ensures r.Ok? ==> var p := old(input.pos);
      r == Ok(UInt8Array(tagType, U32At(input.data, p), BytesOrEnd(input.data, p + 4, S32(length - 8))))
  {
    var reserved :- input.ReadU32BE();
    var count := S32(length - 8);
    if count < 0 {
      return Err(NegativeArraySize);
    }
    // `read()` cannot fail here: the reserved field was read, so the position is not negative.
    var values := input.ReadBytesOrEnd(count);
    return Ok(UInt8Array(tagType, reserved, values.value));
  }

  /** `XYZ_Reader.read`: (length - 8) / 12 triples of fixed-point numbers. */
  method ReadXYZ(tagType: TagType, length: int32, input: ByteStream) returns (r: Result<Tag>)
    modifies input
    ensures var n := Count(length, 8, 12);
      r.Ok? <==> old(input.CanRead(4)) && 0 <= n && old(input.CanRead(4 + 12 * n))
    ensures old(input.CanRead(4)) && Count(length, 8, 12) < 0 ==> r == Err(NegativeArraySize)
    ensures r.Ok? ==> var p := old(input.pos); var n := Count(length, 8, 12);
      r.value.XYZ? && r.value.tagType == tagType && r.value.reserved == U32At(input.data, p) &&
      |r.value.xyzNumbers| == n && input.pos == p + 4 + 12 * n &&
      forall i :: 0 <= i < n ==> r.value.xyzNumbers[i] == FixedsAt(input.data, p + 4 + 12 * i, 3)
  {
    var reserved :- input.ReadU32BE();
    var count := Count(length, 8, 12);
    if count < 0 {
      return Err(NegativeArraySize);
    }
    ghost var q := input.pos;
    var numbers := [];
    for i := 0 to count
      invariant input.pos == q + 12 * i
      invariant i > 0 ==> 0 <= q && q + 12 * i <= |input.data|
      invariant |numbers| == i
      invariant forall k :: 0 <= k < i ==> numbers[k] == FixedsAt(input.data, q + 12 * k, 3)
    {
      var xyz :- ReadFixeds(input, 3);
      numbers := numbers + [xyz];
    }
    return Ok(XYZ(tagType, reserved, numbers));
  }

  /** `TextReader.read`: the remaining length - 8 bytes. */
  method ReadText(tagType: TagType, length: int32, input: ByteStream) returns (r: Result<Tag>)
    modifies input
    ensures var n := S32(length - 8);
      r.Ok? <==> old(input.CanRead(4)) && 0 <= n && old(input.CanRead(4 + n))
    ensures old(input.CanRead(4)) && S32(length - 8) < 0 ==> r == Err(NegativeArraySize)
    ensures r.Ok? ==> var p := old(input.pos); var n := S32(length - 8);
      r.value == Text(tagType, U32At(input.data, p), input.data[p + 4..p + 4 + n]) && input.pos == p + 4 + n
  {
    var reserved :- input.ReadU32BE();
    var count := S32(length - 8);
    if count < 0 {
      return Err(NegativeArraySize);
    }
    var bytes :- input.ReadBytes(count);
    return Ok(Text(tagType, reserved, bytes));
  }

  /** `DataReader.read`: the data flag, then the remaining length - 12 bytes. */
  method ReadData(tagType: TagType, length: int32, input: ByteStream) returns (r: Result<Tag>)
    modifies input
    ensures var n := S32(length - 12);
      r.Ok? <==> old(input.CanRead(8)) && 0 <= n && old(input.CanRead(8 + n))
    ensures old(input.CanRead(8)) && S32(length - 12) < 0 ==> r == Err(NegativeArraySize)
    ensures r.Ok? ==> var p := old(input.pos); var n := S32(length - 12);
      r.value == Data(tagType, U32At(input.data, p), S32At(input.data, p + 4), input.data[p + 8..p + 8 + n]) &&
      input.pos == p + 8 + n
  {
    var reserved :- input.ReadU32BE();
    var dataFlag :- input.ReadS32BE();
    var count := S32(length - 12);
    if count < 0 {
      return Err(NegativeArraySize);
    }
    var bytes :- input.ReadBytes(count);
    return Ok(Data(tagType, reserved, dataFlag, bytes));
  }

  /** `DescReader.read`: an unsigned 32-bit size, then that many bytes (the size cast to a Java int). */
  method ReadDesc(tagType: TagType, input: ByteStream) returns (r: Result<Tag>)
    modifies input
    ensures r.Ok? <==> old(input.CanRead(8)) && 0 <= S32(U32At(input.data, old(input.pos) + 4)) &&
                       old(input.CanRead(8 + S32(U32At(input.data, input.pos + 4))))
    ensures old(input.CanRead(8)) && S32(U32At(input.data, old(input.pos) + 4)) < 0 ==> r == Err(NegativeArraySize)
    ensures r.Ok? ==> var p := old(input.pos); var size := U32At(input.data, p + 4);
      r.value == Desc(tagType, U32At(input.data, p), size, input.data[p + 8..p + 8 + S32(size)]) && input.pos == p + 8 + S32(size)
  {
    var reserved :- input.ReadU32BE();
    var size :- input.ReadU32BE();
    var count := S32(size);
    if count < 0 {
      return Err(NegativeArraySize);
    }
    var bytes :- input.ReadBytes(count);
    return Ok(Desc(tagType, reserved, size, bytes));
  }

  /** a * w grows with a, one stride at a time. */
  lemma StrideStep(i: int, n: int, w: int)
    requires 0 <= i < n && 0 <= w
    ensures i * w + w == (i + 1) * w <= n * w
  {
    assert n * w - (i + 1) * w == (n - i - 1) * w;
  }

  /** The xy entries of a chromaticityType: each a 16-bit whole part and a 16-bit fraction over 65534. */
  function XyAt(d: seq<byte>, q: int, n: nat): (r: seq<real>)
    requires n > 0 ==> 0 <= q && q + 4 * n <= |d|
    ensures |r| == n
  {
    seq(n, i requires 0 <= i < n => U16At(d, q + 4 * i) as real + U16At(d, q + 4 * i + 2) as real / 65534.0)
  }

  /** One xy entry: `readShortBE() + readShortBE() / (65535 - 1)`. */
  method ReadXyEntry(input: ByteStream) returns (r: Result<real>)
    modifies input
    ensures r.Ok? <==> old(input.CanRead(4))
    ensures r.Ok? ==> var p := old(input.pos);
      r.value == U16At(input.data, p) as real + U16At(input.data, p + 2) as real / 65534.0 && input.pos == p + 4
  {
    var k :- input.ReadU16BE();
    var f :- input.ReadU16BE();
    return Ok(k as real + f as real / 65534.0);
  }

  /** The loop of `ChromaticityTypeReader.read` over n xy entries. */
  method ReadXy(input: ByteStream, n: nat) returns (r: Result<seq<real>>)
    modifies input
    ensures r.Ok? <==> n == 0 || old(input.CanRead(4 * n))
    ensures r.Ok? ==> r.value == XyAt(input.data, old(input.pos), n) && input.pos == old(input.pos) + 4 * n
  {
    ghost var q := input.pos;
    var xy := [];
    for i := 0 to n
      invariant input.pos == q + 4 * i
      invariant i > 0 ==> 0 <= q && q + 4 * i <= |input.data|
      invariant xy == XyAt(input.data, q, i)
    {
      var x :- ReadXyEntry(input);
      xy := xy + [x];
    }
    return Ok(xy);
  }

  /** `ChromaticityTypeReader.read`: the channel count and phosphor type, both little-endian, then two xy entries
      per channel. */
  method ReadChromaticity(tagType: TagType, input: ByteStream) returns (r: Result<Tag>)
    modifies input
    ensures r.Ok? <==> old(input.CanRead(8)) && old(input.CanRead(8 + 8 * U16LEAt(input.data, input.pos + 4)))
    ensures r.Ok? ==> var p := old(input.pos); var d := input.data; var n := U16LEAt(d, p + 4);
      r.value == Chromaticity(tagType, U32At(d, p), n, U16LEAt(d, p + 6), XyAt(d, p + 8, 2 * n)) &&
      input.pos == p + 8 + 8 * n
  {
    var reserved :- input.ReadU32BE();
    var channels :- input.ReadU16LE();
    var phosphor :- input.ReadU16LE();
    var xy :- ReadXy(input, channels * 2);
    return Ok(Chromaticity(tagType, reserved, channels, phosphor, xy));
  }

  /** `ColorantOrderReader.read`: a signed count, then one `read()` per colorant, -1 once the data has ended. */
  method ReadColorantOrder(tagType: TagType, input: ByteStream) returns (r: Result<Tag>)
    modifies input
    ensures r.Ok? <==> old(input.CanRead(8)) && 0 <= S32At(input.data, old(input.pos) + 4)
    ensures old(input.CanRead(8)) && S32At(input.data, old(input.pos) + 4) < 0 ==> r == Err(NegativeArraySize)
    ensures r.Ok? ==> var p := old(input.pos); var n := S32At(input.data, p + 4);
      r == Ok(ColorantOrder(tagType, U32At(input.data, p), n, BytesOrEnd(input.data, p + 8, n)))
  {
    var reserved :- input.ReadU32BE();
    var count :- input.ReadS32BE();
    if count < 0 {
      return Err(NegativeArraySize);
    }
    // `read()` cannot fail here: the position is not negative.
    var indexes := input.ReadBytesOrEnd(count);
    return Ok(ColorantOrder(tagType, reserved, count, indexes.value));
  }

  /** One colorant of a colorantTableType: a 32-byte name and three 16-bit PCS values. */
  method ReadColorant(input: ByteStream) returns (r: Result<(seq<byte>, int, int, int)>)
    modifies input
    ensures r.Ok? <==> old(input.CanRead(38))
    ensures r.Ok? ==> var p := old(input.pos); var d := input.data;
      r.value == (d[p..p + 32], U16At(d, p + 32), U16At(d, p + 34), U16At(d, p + 36)) && input.pos == p + 38
  {
    var name :- input.ReadBytes(32);
    var v0 :- input.ReadU16BE();
    var v1 :- input.ReadU16BE();
    var v2 :- input.ReadU16BE();
    return Ok((name, v0, v1, v2));
  }

  /** The loop of `ColorantTableReader.read` over n colorants, 38 bytes each. */
  method ReadColorants(input: ByteStream, n: nat) returns (r: Result<(seq<seq<byte>>, seq<int>, seq<int>, seq<int>)>)
    modifies input
    ensures r.Ok? <==> n == 0 || old(input.CanRead(38 * n))
    ensures r.Ok? ==> var q := old(input.pos); var d := input.data;
      |r.value.0| == n && |r.value.1| == n && |r.value.2| == n && |r.value.3| == n && input.pos == q + 38 * n &&
      forall k :: 0 <= k < n ==>
        r.value.0[k] == d[q + 38 * k..q + 38 * k + 32] && r.value.1[k] == U16At(d, q + 38 * k + 32) &&
        r.value.2[k] == U16At(d, q + 38 * k + 34) && r.value.3[k] == U16At(d, q + 38 * k + 36)
  {
    ghost var q := input.pos;
    var names, pcs0, pcs1, pcs2 := [], [], [], [];
    for i := 0 to n
      invariant input.pos == q + 38 * i
      invariant i > 0 ==> 0 <= q && q + 38 * i <= |input.data|
      invariant |names| == i && |pcs0| == i && |pcs1| == i && |pcs2| == i
      invariant forall k :: 0 <= k < i ==>
        names[k] == input.data[q + 38 * k..q + 38 * k + 32] && pcs0[k] == U16At(input.data, q + 38 * k + 32) &&
        pcs1[k] == U16At(input.data, q + 38 * k + 34) && pcs2[k] == U16At(input.data, q + 38 * k + 36)
    {
      var c :- ReadColorant(input);
      names, pcs0, pcs1, pcs2 := names + [c.0], pcs0 + [c.1], pcs1 + [c.2], pcs2 + [c.3];
    }
    return Ok((names, pcs0, pcs1, pcs2));
  }

  /** `ColorantTableReader.read`: a signed count, then per colorant a 32-byte name and three 16-bit PCS values,
      38 bytes each. */
  method ReadColorantTable(tagType: TagType, input: ByteStream) returns (r: Result<Tag>)
    modifies input
    ensures r.Ok? <==> old(input.CanRead(8)) && 0 <= S32At(input.data, old(input.pos) + 4) &&
                       old(input.CanRead(8 + 38 * S32At(input.data, input.pos + 4)))
    ensures old(input.CanRead(8)) && S32At(input.data, old(input.pos) + 4) < 0 ==> r == Err(NegativeArraySize)
    ensures r.Ok? ==> var p := old(input.pos); var d := input.data; var n := S32At(d, p + 4);
      r.value.ColorantTable? && r.value.tagType == tagType && r.value.reserved == U32At(d, p) &&
      r.value.colorantCount == n && |r.value.colorantNames| == n && |r.value.pcsValues0| == n &&
      |r.value.pcsValues1| == n && |r.value.pcsValues2| == n && input.pos == p + 8 + 38 * n &&
      forall i :: 0 <= i < n ==>
        r.value.colorantNames[i] == d[p + 8 + 38 * i..p + 40 + 38 * i] && r.value.pcsValues0[i] == U16At(d, p + 40 + 38 * i) &&
        r.value.pcsValues1[i] == U16At(d, p + 42 + 38 * i) && r.value.pcsValues2[i] == U16At(d, p + 44 + 38 * i)
  {
    var reserved :- input.ReadU32BE();
    var count :- input.ReadS32BE();
    if count < 0 {
      return Err(NegativeArraySize);
    }
    var c :- ReadColorants(input, count);
    return Ok(ColorantTable(tagType, reserved, count, c.0, c.1, c.2, c.3));
  }

  /** The samples of a curveType with n entries at q (section 10.5 of ICC.1:2010): for more than one entry, 16-bit
      numbers over 65535; for one entry, a byte plus a byte over 256, each -1 once the data has ended; for none,
      nothing. */
  function CurveSamplesAt(d: seq<byte>, q: int, n: int): (r: seq<real>)
    requires 0 <= q && 0 <= n && (n > 1 ==> q + 2 * n <= |d|)
    ensures |r| == n
  {
    if n > 1 then seq(n, i requires 0 <= i < n => U16At(d, q + 2 * i) as real / 65535.0)
    else if n == 1 then [BytesOrEnd(d, q, 2)[0] as real + BytesOrEnd(d, q, 2)[1] as real / 256.0]
    else []
  }

  /** A table of more than one sample lies in [0, 1]. */
  lemma CurveSamplesInUnit(d: seq<byte>, q: int, n: int)
    requires 0 <= q && 1 < n && q + 2 * n <= |d|
    ensures forall i :: 0 <= i < n ==> 0.0 <= CurveSamplesAt(d, q, n)[i] <= 1.0
  {
    assert Pow256(2) == 0x1_0000;
  }

  /** A single entry that is all there is the u8Fixed8Number of section 4.9 of ICC.1:2010: the two bytes read
      big-endian, over 256. */
  lemma CurveGammaIsU8Fixed8(d: seq<byte>, q: int)
    requires 0 <= q && q + 2 <= |d|
    ensures CurveSamplesAt(d, q, 1) == [U16At(d, q) as real / 256.0]
  {
    var b := d[q..q + 2];
    assert b[..1] == [d[q]];
    assert BE(b) == BE([d[q]]) * 256 + d[q + 1];
    assert BE([d[q]]) == d[q];
  }

  /** `CurveReader.read`: a signed entry count, then the samples, in a new `Curve` whose reserved field is set. */
  method ReadCurve(tagType: TagType, input: ByteStream) returns (r: Result<Tag>)
    modifies input
    ensures r.Ok? <==> old(input.CanRead(8)) && 0 <= S32At(input.data, old(input.pos) + 4) &&
                       (S32At(input.data, old(input.pos) + 4) > 1 ==>
                          old(input.CanRead(8 + 2 * S32At(input.data, input.pos + 4))))
    ensures old(input.CanRead(8)) && S32At(input.data, old(input.pos) + 4) < 0 ==> r == Err(NegativeArraySize)
    ensures r.Ok? ==> var p := old(input.pos); var n := S32At(input.data, p + 4);
      r.value.CurveTag? && fresh(r.value.curve) && r.value.curve.tagType == tagType &&
      r.value.curve.values == Some(CurveSamplesAt(input.data, p + 8, n)) && r.value.curve.Consistent() &&
      r.value.curve.reserved == U32At(input.data, p) && r.value.curve.inverse == null
  {
    var reserved :- input.ReadU32BE();
    var entryCount :- input.ReadS32BE();
    if entryCount < 0 {
      return Err(NegativeArraySize);
    }
    ghost var q := input.pos;
    var values: seq<real>;
    if entryCount > 1 {
      var samples :- input.ReadU16s(entryCount);
      values := seq(entryCount, i requires 0 <= i < entryCount => samples[i] as real / 65535.0);
      assert values == CurveSamplesAt(input.data, q, entryCount);
    } else if entryCount == 1 {
      // `read()` cannot fail here: the position is not negative.
      var b := input.ReadBytesOrEnd(2);
      values := [b.value[0] as real + b.value[1] as real / 256.0];
    } else {
      values := [];
    }
    var c := new Curve(tagType, Some(values));
    c.SetReserved(reserved);
    return Ok(CurveTag(c));
  }

  /** `ParametricCurveReader.read`: the function type, the second reserved field, and as many parameters as the
      function type takes (none for an unknown type), in a new `ParametricCurve`. */
  method ReadParametricCurve(tagType: TagType, input: ByteStream) returns (r: Result<Tag>)
    modifies input
    ensures r.Ok? <==> old(input.CanRead(8)) && old(input.CanRead(8 + 4 * ParamCount(U16At(input.data, input.pos + 4))))
    ensures r.Ok? ==> var p := old(input.pos); var d := input.data; var k := ParamCount(U16At(d, p + 4));
      r.value.ParametricTag? && fresh(r.value.parametric) && r.value.parametric.tagType == tagType &&
      r.value.parametric.functionType == U16At(d, p + 4) && r.value.parametric.params == FixedsAt(d, p + 8, k) &&
      r.value.parametric.reserved == U32At(d, p) && r.value.parametric.reserved2 == U16At(d, p + 6) &&
      r.value.parametric.inverse == null && r.value.parametric.Consistent() && input.pos == p + 8 + 4 * k
  {
    var reserved :- input.ReadU32BE();
    var functionType :- input.ReadU16BE();
    var reserved2 :- input.ReadU16BE();
    var params :- ReadFixeds(input, ParamCount(functionType));
    var c := new ParametricCurve(tagType, functionType, params);
    c.SetReserved(reserved);
    c.SetReserved2(reserved2);
    return Ok(ParametricTag(c));
  }

  /** The names of a multiLocalizedUnicodeType as the reader takes them: back to back from q, name i being the
      next `(int) lengths[i]` bytes. A negative length fails the allocation and a name past the end of the data
      fails the read, whichever comes first. */
  function NamesAt(d: seq<byte>, q: int, lengths: seq<int>): (r: Result<seq<seq<byte>>>)
    requires 0 <= q <= |d|
    ensures r.Ok? ==> |r.value| == |lengths|
    decreases |lengths|
  {
    if lengths == [] then Ok([])
    else
      var n := S32(lengths[0]);
      if n < 0 then Err(NegativeArraySize)
      else if q + n > |d| then Err(EndOfData)
      else match NamesAt(d, q + n, lengths[1..])
        case Ok(rest) => Ok([d[q..q + n]] + rest)
        case Err(e) => Err(e)
  }

  /** The names read so far, followed by what reading the rest gives. */
  function Then(names: seq<seq<byte>>, rest: Result<seq<seq<byte>>>): Result<seq<seq<byte>>>
  {
    match rest
    case Ok(more) => Ok(names + more)
    case Err(e) => Err(e)
  }

  /** With nothing read yet, the result is what reading the rest gives. */
  lemma ThenNothing(rest: Result<seq<seq<byte>>>)
    ensures Then([], rest) == rest
  {
    if rest.Ok? {
      assert [] + rest.value == rest.value;
    }
  }

  /** Moving one name from the rest to the names read so far. */
  lemma ThenStep(names: seq<seq<byte>>, name: seq<byte>, rest: Result<seq<seq<byte>>>)
    ensures Then(names, match rest case Ok(more) => Ok([name] + more) case Err(e) => Err(e)) == Then(names + [name], rest)
  {
    if rest.Ok? {
      assert names + ([name] + rest.value) == names + [name] + rest.value;
    }
  }

  /** The sum of the lengths, each taken as a Java int. */
  function Total(lengths: seq<int>): int
  {
    if lengths == [] then 0 else Total(lengths[..|lengths| - 1]) + S32(lengths[|lengths| - 1])
  }

  /** The names lie back to back: name i starts where the lengths before it end, whatever the records' offsets say,
      and there is one name per length. */
  lemma {:induction false} NamesBackToBack(d: seq<byte>, q: int, lengths: seq<int>)
    requires 0 <= q <= |d| && NamesAt(d, q, lengths).Ok?
    ensures var names := NamesAt(d, q, lengths).value;
      |names| == |lengths| &&
      forall i :: 0 <= i < |lengths| ==>
        0 <= S32(lengths[i]) && 0 <= q + Total(lengths[..i]) &&
        q + Total(lengths[..i]) + S32(lengths[i]) <= |d| &&
        names[i] == d[q + Total(lengths[..i])..q + Total(lengths[..i]) + S32(lengths[i])]
    decreases |lengths|
  {
    if lengths != [] {
      var n := S32(lengths[0]);
      var tail := lengths[1..];
      NamesBackToBack(d, q + n, tail);
      forall i | 0 <= i < |lengths|
        ensures Total(lengths[..i]) == (if i == 0 then 0 else n + Total(tail[..i - 1]))
      {
        TotalCons(lengths, i);
      }
    }
  }

  /** Splitting the first length off a prefix sum. */
  lemma {:induction false} TotalCons(lengths: seq<int>, i: int)
    requires 0 <= i <= |lengths| && lengths != []
    ensures Total(lengths[..i]) == (if i == 0 then 0 else S32(lengths[0]) + Total(lengths[1..][..i - 1]))
    decreases i
  {
    if i > 1 {
      TotalCons(lengths, i - 1);
      assert lengths[..i][..i - 1] == lengths[..i - 1];
      assert lengths[1..][..i - 1][..i - 2] == lengths[1..][..i - 2];
    } else if i == 1 {
      assert lengths[..1][..0] == [];
    }
  }

  /** The second loop of `MultiLocalizedUnicodeReader.read`: one `readFully` per name into a new array of
      `(int) nameLength[i]` bytes. */
  method ReadNames(input: ByteStream, lengths: seq<int>) returns (r: Result<seq<seq<byte>>>)
    requires 0 <= input.pos <= |input.data|
    modifies input
    ensures r == NamesAt(input.data, old(input.pos), lengths)
  {
    var names := [];
    assert lengths[0..] == lengths;
    ThenNothing(NamesAt(input.data, input.pos, lengths));
    for i := 0 to |lengths|
      invariant 0 <= input.pos <= |input.data|
      invariant NamesAt(input.data, old(input.pos), lengths) == Then(names, NamesAt(input.data, input.pos, lengths[i..]))
    {
      var n := S32(lengths[i]);
      assert lengths[i..][0] == lengths[i] && lengths[i..][1..] == lengths[i + 1..];
      if n < 0 {
        return Err(NegativeArraySize);
      }
      ghost var q := input.pos;
      var name :- input.ReadBytes(n);
      assert name == input.data[q..q + n];
      ThenStep(names, name, NamesAt(input.data, q + n, lengths[i + 1..]));
      names := names + [name];
    }
    assert lengths[|lengths|..] == [];
    assert names + [] == names;
    return Ok(names);
  }

  /** One name record: language and country codes, 16 bits each, then the name's length and offset. */
  method ReadNameRecord(input: ByteStream) returns (r: Result<(int, int, int, int)>)
    modifies input
    ensures r.Ok? <==> old(input.CanRead(12))
    ensures r.Ok? ==> var p := old(input.pos); var d := input.data;
      r.value == (U16At(d, p), U16At(d, p + 2), U32At(d, p + 4), U32At(d, p + 8)) && input.pos == p + 12
  {
    var language :- input.ReadU16BE();
    var country :- input.ReadU16BE();
    var length :- input.ReadU32BE();
    var offset :- input.ReadU32BE();
    return Ok((language, country, length, offset));
  }

  /** The name lengths of n records from q on. */
  function NameLengthsAt(d: seq<byte>, q: int, n: nat): (r: seq<int>)
    requires n > 0 ==> 0 <= q && q + 12 * n <= |d|
    ensures |r| == n
  {
    seq(n, i requires 0 <= i < n => U32At(d, q + 12 * i + 4))
  }

  /** The first loop of `MultiLocalizedUnicodeReader.read` over n name records, 12 bytes each. */
  method ReadNameRecords(input: ByteStream, n: nat) returns (r: Result<(seq<int>, seq<int>, seq<int>, seq<int>)>)
    modifies input
    ensures r.Ok? <==> n == 0 || old(input.CanRead(12 * n))
    ensures r.Ok? ==> var q := old(input.pos); var d := input.data;
      |r.value.0| == n && |r.value.1| == n && r.value.2 == NameLengthsAt(d, q, n) && |r.value.3| == n &&
      input.pos == q + 12 * n &&
      forall k :: 0 <= k < n ==>
        r.value.0[k] == U16At(d, q + 12 * k) && r.value.1[k] == U16At(d, q + 12 * k + 2) &&
        r.value.3[k] == U32At(d, q + 12 * k + 8)
  {
    ghost var q := input.pos;
    var languages, countries, lengths, offsets := [], [], [], [];
    for i := 0 to n
      invariant input.pos == q + 12 * i
      invariant i > 0 ==> 0 <= q && q + 12 * i <= |input.data|
      invariant |languages| == i && |countries| == i && lengths == NameLengthsAt(input.data, q, i) && |offsets| == i
      invariant forall k :: 0 <= k < i ==>
        languages[k] == U16At(input.data, q + 12 * k) && countries[k] == U16At(input.data, q + 12 * k + 2) &&
        offsets[k] == U32At(input.data, q + 12 * k + 8)
    {
      var c :- ReadNameRecord(input);
      languages, countries, lengths, offsets := languages + [c.0], countries + [c.1], lengths + [c.2], offsets + [c.3];
    }
    return Ok((languages, countries, lengths, offsets));
  }

  /** n name records from q on, followed by the names they give, all within the data. */
  predicate NameEntriesFit(d: seq<byte>, q: int, n: nat)
    requires 0 <= q <= |d|
  {
    q + 12 * n <= |d| && NamesAt(d, q + 12 * n, NameLengthsAt(d, q, n)).Ok?
  }

  /** The n name records from q on, as four columns (language, country, name length, offset), and the names they
      give, read back to back after the records. */
  function NameEntriesAt(d: seq<byte>, q: int, n: nat): (e: (seq<int>, seq<int>, seq<int>, seq<int>, seq<seq<byte>>))
    requires 0 <= q <= |d| && NameEntriesFit(d, q, n)
    ensures |e.0| == n && |e.1| == n && |e.2| == n && |e.3| == n && |e.4| == n
    ensures forall k :: 0 <= k < n ==>
      e.0[k] == U16At(d, q + 12 * k) && e.1[k] == U16At(d, q + 12 * k + 2) &&
      e.2[k] == U32At(d, q + 12 * k + 4) && e.3[k] == U32At(d, q + 12 * k + 8)
  {
    var lengths := NameLengthsAt(d, q, n);
    (seq(n, k requires 0 <= k < n => U16At(d, q + 12 * k)), seq(n, k requires 0 <= k < n => U16At(d, q + 12 * k + 2)),
     lengths, seq(n, k requires 0 <= k < n => U32At(d, q + 12 * k + 8)), NamesAt(d, q + 12 * n, lengths).value)
  }

  /** The two loops of `MultiLocalizedUnicodeReader.read`: n name records, then the names. */
  method ReadNameEntries(input: ByteStream, n: nat)
    returns (r: Result<(seq<int>, seq<int>, seq<int>, seq<int>, seq<seq<byte>>)>)
    requires 0 <= input.pos <= |input.data|
    modifies input
    ensures r.Ok? <==> NameEntriesFit(input.data, old(input.pos), n)
    ensures r.Ok? ==> r.value == NameEntriesAt(input.data, old(input.pos), n)
  {
    ghost var q := input.pos;
    var records :- ReadNameRecords(input, n);
    var names :- ReadNames(input, records.2);
    ghost var e := NameEntriesAt(input.data, q, n);
    assert records.0 == e.0 && records.1 == e.1 && records.3 == e.3;
    return Ok((records.0, records.1, records.2, records.3, names));
  }

  /** `MultiLocalizedUnicodeReader.read`: a signed name count, the low byte of the record size, all the name
      records, then the names back to back; the records' offsets are stored but never used. Names are kept as their
      raw bytes. */
  method ReadMultiLocalizedUnicode(tagType: TagType, input: ByteStream) returns (r: Result<Tag>)
    modifies input
    ensures r.Ok? <==> old(input.CanRead(12)) && 0 <= S32At(input.data, old(input.pos) + 4) &&
                       NameEntriesFit(input.data, old(input.pos) + 12, S32At(input.data, old(input.pos) + 4))
    ensures old(input.CanRead(12)) && S32At(input.data, old(input.pos) + 4) < 0 ==> r == Err(NegativeArraySize)
    ensures r.Ok? ==> var p := old(input.pos); var d := input.data; var n := S32At(d, p + 4);
      var e := NameEntriesAt(d, p + 12, n);
      r.value == MultiLocalizedUnicode(tagType, U32At(d, p), n, U32At(d, p + 8) % 256, e.0, e.1, e.2, e.3, e.4)
  {
    var reserved :- input.ReadU32BE();
    var count :- input.ReadS32BE();
    var recordSize :- input.ReadU32BE();
    if count < 0 {
      return Err(NegativeArraySize);
    }
    var e :- ReadNameEntries(input, count);
    return Ok(MultiLocalizedUnicode(tagType, reserved, count, recordSize % 256, e.0, e.1, e.2, e.3, e.4));
  }

  /** One named colour: a 32-byte name, three PCS coordinates and n device coordinates, all unsigned 32-bit. */
  method ReadNamedColor(input: ByteStream, n: nat) returns (r: Result<(seq<byte>, seq<int>, seq<int>)>)
    modifies input
    ensures r.Ok? <==> old(input.CanRead(44 + 4 * n))
    ensures r.Ok? ==> var p := old(input.pos); var d := input.data;
      r.value == (d[p..p + 32], U32sAt(d, p + 32, 3), U32sAt(d, p + 44, n)) && input.pos == p + 44 + 4 * n
  {
    var name :- input.ReadBytes(32);
    var pcs :- input.ReadU32s(3);
    var device :- input.ReadU32s(n);
    return Ok((name, pcs, device));
  }

  /** The colour records of 44 + 4 * n bytes each from q on, one per name: the 32-byte name, three PCS coordinates
      and n device coordinates. */
  predicate NamedColorsAt(d: seq<byte>, q: int, n: nat, names: seq<seq<byte>>, pcs: seq<seq<int>>, device: seq<seq<int>>)
  {
    var w := 44 + 4 * n;
    |pcs| == |names| && |device| == |names| &&
    forall k :: 0 <= k < |names| ==>
      0 <= q + k * w && q + k * w + w <= |d| &&
      names[k] == d[q + k * w..q + k * w + 32] && pcs[k] == U32sAt(d, q + k * w + 32, 3) &&
      device[k] == U32sAt(d, q + k * w + 44, n)
  }

  /** The loop of `NamedColor2Reader.read` over `count` colours with n device coordinates each. */
  method ReadNamedColors(input: ByteStream, count: nat, n: nat) returns (r: Result<(seq<seq<byte>>, seq<seq<int>>, seq<seq<int>>)>)
    modifies input
    ensures r.Ok? <==> count == 0 || old(input.CanRead(count * (44 + 4 * n)))
    ensures r.Ok? ==> |r.value.0| == count && input.pos == old(input.pos) + count * (44 + 4 * n)
    ensures r.Ok? ==> NamedColorsAt(input.data, old(input.pos), n, r.value.0, r.value.1, r.value.2)
  {
    ghost var q := input.pos;
    var w := 44 + 4 * n;
    var names, pcs, device := [], [], [];
    for i := 0 to count
      invariant input.pos == q + i * w
      invariant i > 0 ==> 0 <= q && q + i * w <= |input.data|
      invariant |names| == i && |pcs| == i && |device| == i
      invariant forall k :: 0 <= k < i ==>
        0 <= q + k * w && q + k * w + w <= q + i * w &&
        names[k] == input.data[q + k * w..q + k * w + 32] && pcs[k] == U32sAt(input.data, q + k * w + 32, 3) &&
        device[k] == U32sAt(input.data, q + k * w + 44, n)
    {
      StrideStep(i, count, w);
      var c :- ReadNamedColor(input, n);
      names, pcs, device := names + [c.0], pcs + [c.1], device + [c.2];
    }
    return Ok((names, pcs, device));
  }

  /** `NamedColor2Reader.read`: the vendor flag, two signed counts, a 32-byte prefix and suffix, the three arrays
      (all of whose dimensions must be non-negative), then each colour. */
  method ReadNamedColor2(tagType: TagType, input: ByteStream) returns (r: Result<Tag>)
    modifies input
    ensures r.Ok? <==> old(input.CanRead(80)) && 0 <= S32At(input.data, old(input.pos) + 8) &&
                       0 <= S32At(input.data, old(input.pos) + 12) &&
                       old(input.CanRead(80 + S32At(input.data, input.pos + 8) * (44 + 4 * S32At(input.data, input.pos + 12))))
    ensures old(input.CanRead(80)) && (S32At(input.data, old(input.pos) + 8) < 0 || S32At(input.data, old(input.pos) + 12) < 0)
            ==> r == Err(NegativeArraySize)
    ensures r.Ok? ==> var p := old(input.pos); var d := input.data;
      var count := S32At(d, p + 8); var n := S32At(d, p + 12);
      r.value.NamedColor2? && r.value.tagType == tagType && r.value.reserved == U32At(d, p) &&
      r.value.vendorSpecificFlag == U32At(d, p + 4) && r.value.countOfNamedColors == count &&
      r.value.numberOfDeviceCoordinates == n && r.value.prefix == d[p + 16..p + 48] && r.value.suffix == d[p + 48..p + 80] &&
      |r.value.colorNames| == count &&
      NamedColorsAt(d, p + 80, n, r.value.colorNames, r.value.colorPcsCoordinates, r.value.colorDeviceCoordinates)
  {
    var reserved :- input.ReadU32BE();
    var vendorFlag :- input.ReadU32BE();
    var count :- input.ReadS32BE();
    var n :- input.ReadS32BE();
    var prefix :- input.ReadBytes(32);
    var suffix :- input.ReadBytes(32);
    if count < 0 || n < 0 {
      return Err(NegativeArraySize);
    }
    var colors :- ReadNamedColors(input, count, n);
    return Ok(NamedColor2(tagType, reserved, vendorFlag, count, n, prefix, suffix, colors.0, colors.1, colors.2));
  }
}
