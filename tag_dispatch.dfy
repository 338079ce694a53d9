/** The reader dispatch: `TagReader.read` called through a reader's class, and the lutAtoBType reader, whose curve
    sections hold embedded tags read through the same dispatch. */
module TagDispatch {
  import opened Wrappers
  import opened JavaNum
  import opened Streams
  import opened TagTypes
  import opened Curves
  import opened DateTimes
  import opened Tags
  import opened TagReaders
  import opened LutReaders

  /** The first position from x on that does not hold a zero byte; x itself once x is at or past the end. */
  function NonZeroFrom(d: seq<byte>, x: nat): (z: nat)
    ensures x <= z
    ensures z < |d| ==> d[z] != 0
    ensures forall k :: x <= k < z && k < |d| ==> d[k] == 0
    decreases |d| - x
  {
    if x < |d| && d[x] == 0 then NonZeroFrom(d, x + 1) else x
  }

  /** The signature `findTag` assembles at z: the four bytes there, big-endian, or -1 once any of them is missing. */
  function SignatureAt(d: seq<byte>, z: nat): int
  {
    if z + 4 <= |d| then BE(d[z..z + 4]) else -1
  }

  /** The loop at the head of `findTag`: `read()` until a byte is not 0; returns that byte, or -1 at the end. */
  method SkipZeros(input: ByteStream) returns (k: int)
    requires 0 <= input.pos
    modifies input
    ensures var z := NonZeroFrom(input.data, old(input.pos)); k == ByteOrEnd(input.data, z) && input.At(z + 1)
  {
    ghost var d, p := input.data, input.pos;
    k := 0;
    while k == 0
      invariant 0 <= input.pos
      invariant k == 0 ==> NonZeroFrom(d, p) == NonZeroFrom(d, input.pos)
      invariant k != 0 ==> var z := NonZeroFrom(d, p); k == ByteOrEnd(d, z) && input.At(z + 1)
      decreases if k == 0 then 1 else 0, |d| - input.pos
    {
      var b := input.Read();
      k := b.value;
    }
  }

  /** One shift of `findTag`: with the first i bytes from z assembled (or -1), shifting in what `read()` gives at
      z + i assembles i + 1 bytes (or -1). */
  lemma ShiftStep(d: seq<byte>, z: nat, i: nat, tag: int, b: int)
    requires 1 <= i <= 3 && b == ByteOrEnd(d, z + i)
    requires tag == if z + i <= |d| then BE(d[z..z + i]) else -1
    ensures (if b == -1 then -1 else S64(tag * 256) + b) == if z + i + 1 <= |d| then BE(d[z..z + i + 1]) else -1
  {
    if b != -1 {
      assert d[z..z + i + 1] == d[z..z + i] + [d[z + i]];
      BEAppend(d[z..z + i], d[z + i]);
      assert Pow256(i) <= Pow256(3) == 0x100_0000 by {
        if i < 3 {
          assert Pow256(2) == 0x1_0000;
        }
      }
    }
  }

  /** The three shifts of `findTag` after its first byte k, read at z: `tag = (tag << 8) | k` with `read()`. */
  method ShiftInBytes(input: ByteStream, k: int, ghost z: nat) returns (tag: int)
    requires k == ByteOrEnd(input.data, z) && input.At(z + 1)
    modifies input
    ensures tag == SignatureAt(input.data, z) && input.At(z + 4)
  {
    ghost var d := input.data;
    tag := k;
    assert z + 1 <= |d| ==> d[z..z + 1] == [] + [d[z]];
    assert z + 1 <= |d| ==> BE(d[z..z + 1]) == d[z] by {
      if z + 1 <= |d| {
        BEAppend([], d[z]);
      }
    }
    for i := 1 to 4
      invariant input.At(z + i) && input.data == d
      invariant tag == if z + i <= |d| then BE(d[z..z + i]) else -1
    {
      var b := ReadByteAt(input, z + i);
      ShiftStep(d, z, i, tag, b);
      tag := if b == -1 then -1 else S64(tag * 256) + b;
    }
  }

  /** `findTag`: skips zero bytes, then reads one more and shifts in three more with `(tag << 8) | k`. A -1 from
      the end of the data turns every later step into -1, so the result is the big-endian signature at the first
      non-zero byte, or -1 when the data ends before four bytes from there. */
  method FindTag(input: ByteStream) returns (r: Result<int>)
    modifies input
    ensures old(input.pos) < 0 ==> r == Err(IndexOutOfBounds)
    ensures 0 <= old(input.pos) ==> var z := NonZeroFrom(input.data, old(input.pos));
      r == Ok(SignatureAt(input.data, z)) && input.At(z + 4)
  {
    if input.pos < 0 {
      return Err(IndexOutOfBounds);
    }
    ghost var z := NonZeroFrom(input.data, input.pos);
    var k := SkipZeros(input);
    var tag := ShiftInBytes(input, k, z);
    return Ok(tag);
  }

  /** A signature after any number of zero padding bytes is found whole: `findTag` skips exactly the padding. */
  lemma FindTagSkipsPadding(padding: nat, signature: seq<byte>, rest: seq<byte>)
    requires |signature| == 4 && signature[0] != 0
    ensures var d := seq(padding, _ => 0) + signature + rest;
      NonZeroFrom(d, 0) == padding && SignatureAt(d, padding) == BE(signature)
  {
    var d := seq(padding, _ => 0) + signature + rest;
    var z := NonZeroFrom(d, 0);
    assert d[padding] == signature[0];
    assert d[padding..padding + 4] == signature;
  }

  /** `readMatrix`: twelve s15Fixed16 numbers from `offset` in the tag data, through a new stream over it. */
  method ReadMatrix(offset: int32, data: seq<byte>) returns (r: Result<seq<real>>)
    ensures r.Ok? <==> 0 <= offset && offset + 48 <= |data|
    ensures r.Ok? ==> r.value == FixedsAt(data, offset, 12)
  {
    var input := new ByteStream(data, offset);
    r := ReadFixeds(input, 12);
  }

  /** The fifteen grid point counts a CLUT section starts with, as `read()` gives them (-1 past the end). */
  function GridPointsAt(data: seq<byte>, offset: nat): (r: seq<int>)
    ensures |r| == 15
  {
    BytesOrEnd(data, offset, 15)
  }

  /** The precision byte after the grid point counts: 1 for 8-bit cells, 2 for 16-bit cells. */
  function PrecisionAt(data: seq<byte>, offset: nat): int
  {
    ByteOrEnd(data, offset + 15)
  }

  /** The fill step of `readClutInfo`: `readClut8` for precision 1, `readClut16` for precision 2, nothing (a logged
      message) for any other precision. */
  method ReadClutCells(clut: CLUT, input: ByteStream, precision: int, ghost x: int) returns (r: Result<()>)
    requires clut.Valid() && 0 <= x && input.At(x) && (x <= |input.data| ==> input.pos == x)
    modifies clut, input
    ensures clut.Valid() && |clut.table| == old(|clut.table|)
    ensures precision == 1 && |clut.table| > 0 ==> r.Ok? && Clut8RowsAt(input.data, x, clut.table, clut.outputCount)
    ensures precision == 2 ==> (r.Ok? <==> Fits(input.data, x, 4 * (|clut.table| * clut.outputCount)))
    ensures precision == 2 && r.Ok? && |clut.table| > 0 ==> Clut16RowsAt(input.data, x, clut.table, clut.outputCount)
    ensures precision != 2 ==> r.Ok?
    ensures precision != 1 && precision != 2 ==> clut.table == old(clut.table)
  {
    if precision == 1 {
      var count := ReadClut8(clut, input, x);
    } else if precision == 2 {
      var count :- ReadClut16(clut, input);
    }
    return Ok(());
  }

  /** The head of a CLUT section as `readClutInfo` reads it with `read()`: fifteen grid point counts, the precision
      and three padding bytes. */
  method ReadClutHead(input: ByteStream, ghost x: int) returns (gridPoints: seq<int>, precision: int)
    requires 0 <= x && input.At(x)
    modifies input
    ensures gridPoints == GridPointsAt(input.data, x) && precision == PrecisionAt(input.data, x)
    ensures input.At(x + 19) && (x + 19 <= |input.data| ==> input.pos == x + 19)
  {
    gridPoints := [];
    for i := 0 to 15
      invariant input.At(x + i) && gridPoints == BytesOrEnd(input.data, x, i)
    {
      var k := ReadByteAt(input, x + i);
      gridPoints := gridPoints + [k];
    }
    precision := ReadByteAt(input, x + 15);
    var padding := ReadByteAt(input, x + 16);
    padding := ReadByteAt(input, x + 17);
    padding := ReadByteAt(input, x + 18);
  }

  /** `readClutInfo`: fifteen grid point counts, the precision and three padding bytes, then a CLUT of the tag's
      input and output counts over those grid points, filled with 8-bit or 16-bit cells by the precision and left
      as allocated for any other precision. */
  method ReadClutInfo(offset: int32, data: seq<byte>, inputCount: int, outputCount: int) returns (r: Result<CLUT>)
    ensures offset < 0 ==> r == Err(IndexOutOfBounds)
    ensures 0 <= offset && ClutFailure(inputCount, GridPointsAt(data, offset), outputCount).Some? ==>
      r == Err(ClutFailure(inputCount, GridPointsAt(data, offset), outputCount).value)
    ensures r.Ok? ==> 0 <= offset && ClutFailure(inputCount, GridPointsAt(data, offset), outputCount).None?
    ensures r.Ok? ==> fresh(r.value) && r.value.Valid() && r.value.inputCount == inputCount &&
                      r.value.outputCount == outputCount && r.value.gridPointCount == GridPointsAt(data, offset) &&
                      |r.value.table| == GridSize(GridPointsAt(data, offset), inputCount)
    ensures r.Ok? && PrecisionAt(data, offset) == 1 && |r.value.table| > 0 ==>
      Clut8RowsAt(data, offset + 19, r.value.table, outputCount)
    ensures 0 <= offset && PrecisionAt(data, offset) == 2 ==>
      (r.Ok? <==> ClutFailure(inputCount, GridPointsAt(data, offset), outputCount).None? &&
                  Fits(data, offset + 19, 4 * (GridSize(GridPointsAt(data, offset), inputCount) * outputCount)))
    ensures r.Ok? && PrecisionAt(data, offset) == 2 && |r.value.table| > 0 ==>
      Clut16RowsAt(data, offset + 19, r.value.table, outputCount)
    ensures 0 <= offset && PrecisionAt(data, offset) != 2 ==>
      (r.Ok? <==> ClutFailure(inputCount, GridPointsAt(data, offset), outputCount).None?)
    ensures r.Ok? && PrecisionAt(data, offset) != 1 && PrecisionAt(data, offset) != 2 ==> Zeroed(r.value.table)
  {
    if offset < 0 {
      return Err(IndexOutOfBounds);
    }
    var input := new ByteStream(data, offset);
    var gridPoints, precision := ReadClutHead(input, offset);
    var clut :- NewCLUT(inputCount, gridPoints, outputCount);
    var filled :- ReadClutCells(clut, input, precision, offset + 19);
    return Ok(clut);
  }

  /** A CLUT as `readClutInfo` leaves it when read at q from the tag data: sizes the constructor accepts, the
      tag's channel counts, the fifteen grid point counts at q, as many grid points as they span, and the cells by
      the precision byte: 8-bit samples for 1, 16-bit samples for 2, zeros for any other precision. */
  predicate ClutAt(c: CLUT, data: seq<byte>, q: int, inputCount: int, outputCount: int)
    reads c
  {
    0 <= q && ClutFailure(inputCount, GridPointsAt(data, q), outputCount).None? &&
    c.Valid() && c.inputCount == inputCount && c.outputCount == outputCount &&
    c.gridPointCount == GridPointsAt(data, q) && |c.table| == GridSize(GridPointsAt(data, q), inputCount) &&
    (PrecisionAt(data, q) == 1 && |c.table| > 0 ==> Clut8RowsAt(data, q + 19, c.table, outputCount)) &&
    (PrecisionAt(data, q) == 2 && |c.table| > 0 ==> Clut16RowsAt(data, q + 19, c.table, outputCount)) &&
    (PrecisionAt(data, q) != 1 && PrecisionAt(data, q) != 2 ==> Zeroed(c.table))
  }

  /** The tag class each reader class creates. */
  predicate Produces(kind: ReaderKind, t: Tag)
  {
    match kind
    case ColorantOrderReader => t.ColorantOrder?
    case ChromaticityTypeReader => t.Chromaticity?
    case ColorantTableReader => t.ColorantTable?
    case CurveReader => t.CurveTag?
    case DataReader => t.Data?
    case DateTimeReader => t.DateTime?
    case LutReader => t.Lut?
    case LutAtoBReader => t.LutAtoB?
    case MeasurementReader => t.Measurement?
    case MultiLocalizedUnicodeReader => t.MultiLocalizedUnicode?
    case NamedColor2Reader => t.NamedColor2?
    case ParametricCurveReader => t.ParametricTag?
    case S15Fixed16ArrayReader => t.S15Fixed16Array?
    case SignatureReader => t.Signature?
    case TextReader => t.Text?
    case U16Fixed16ArrayReader => t.S15Fixed16Array?
    case UInt16ArrayReader => t.UInt16Array?
    case UInt32ArrayReader => t.UInt32Array?
    case UInt64ArrayReader => t.UInt64Array?
    case UInt8ArrayReader => t.UInt8Array?
    case ViewingConditionsReader => t.ViewingConditions?
    case XYZReader => t.XYZ?
    case DescReader => t.Desc?
  }

  /** The fixed part of a lutAtoBType after its signature: reserved, the input and output channel counts (single
      bytes), padding, and the five unsigned offsets of the B curves, matrix, M curves, CLUT and A curves. */
  datatype LutAtoBHeader = LutAtoBHeader(reserved: int, inputs: int, outputs: int, padding2: int, offsets: seq<int>)

  /** The header as it lies at p when all 28 bytes are there. */
  function LutAtoBHeaderAt(d: seq<byte>, p: int): (h: LutAtoBHeader)
    requires 0 <= p && p + 28 <= |d|
    ensures |h.offsets| == 5
  {
    LutAtoBHeader(U32At(d, p), d[p + 4], d[p + 5], U16At(d, p + 6), U32sAt(d, p + 8, 5))
  }

  /** Reads the 28-byte header of `LutAtoB_Reader.read`. The channel counts come from `read()`, but a header cut
      short there fails at the padding read: the header is read exactly when all of it is there. */
  method ReadLutAtoBHeader(input: ByteStream) returns (r: Result<LutAtoBHeader>)
    modifies input
    ensures r.Ok? <==> old(input.CanRead(28))
    ensures r.Ok? ==> r.value == LutAtoBHeaderAt(input.data, old(input.pos)) && input.pos == old(input.pos) + 28
  {
    var reserved :- input.ReadU32BE();
    // pos is not negative here, so the reads cannot fail
    var b := input.ReadBytesOrEnd(2);
    var counts := b.value;
    var padding2 :- input.ReadU16BE();
    var offsets :- input.ReadU32s(5);
    return Ok(LutAtoBHeader(reserved, counts[0], counts[1], padding2, offsets));
  }

  /** The offset of a section inside the tag data: the tag offset less the 32 bytes before the data, as an int. */
  function SectionOffset(tagOffset: int): int32
  {
    S32(tagOffset - 32)
  }

  /** The fields of a lutAtoBType tag taken from its header, and the sections present exactly where an offset is
      greater than zero, with as many curve slots as the channels they apply to. */
  predicate LutAtoBFieldsFrom(t: Tag, h: LutAtoBHeader)
  {
    |h.offsets| == 5 &&
    t.LutAtoB? && t.tagType == LutAToBType && t.reserved == h.reserved && t.numberOfInputChannels == h.inputs &&
    t.numberOfOutputChannels == h.outputs && t.padding2 == h.padding2 &&
    t.offsetToFirstBCurve == h.offsets[0] && t.offsetToMatrix == h.offsets[1] && t.offsetToFirstMCurve == h.offsets[2] &&
    t.offsetToClut == h.offsets[3] && t.offsetToFirstACurve == h.offsets[4] &&
    (t.bCurves.Some? <==> h.offsets[0] > 0) && (t.bCurves.Some? ==> |t.bCurves.value| == h.outputs) &&
    (t.mCurves.Some? <==> h.offsets[2] > 0) && (t.mCurves.Some? ==> |t.mCurves.value| == h.outputs) &&
    (t.aCurves.Some? <==> h.offsets[4] > 0) && (t.aCurves.Some? ==> |t.aCurves.value| == h.inputs) &&
    (t.clutSection.Some? <==> h.offsets[3] > 0) &&
    CurveSlotsValid(t.bCurves) && CurveSlotsValid(t.mCurves) && CurveSlotsValid(t.aCurves)
  }

  /** The matrix of a lutAtoBType read from the tag data: twelve zeros when its offset is 0, else the twelve
      numbers at the section offset. */
  predicate LutAtoBMatrixFrom(t: Tag, h: LutAtoBHeader, data: seq<byte>)
  {
    |h.offsets| == 5 && t.LutAtoB? &&
    if h.offsets[1] <= 0 then t.matrix == seq(12, _ => 0.0)
    else var q := SectionOffset(h.offsets[1]); 0 <= q && q + 48 <= |data| && t.matrix == FixedsAt(data, q, 12)
  }

  /** `readCurves`: a new stream over the tag data at `offset`, then `count` embedded tags, each found by
      `findTag`, looked up with `TagType.create` and read with its reader over the whole data length; a slot keeps
      the tag only when it is a curve, and stays null for an unknown type, a type without a reader, or a tag that
      is not a curve. */
  method ReadCurves(offset: int32, count: int, data: seq<byte>) returns (r: Result<seq<Option<ICurve>>>)
    requires |data| < TWO_31
    ensures count < 0 ==> r == Err(NegativeArraySize)
    ensures r.Ok? ==> |r.value| == count && CurveSlotsValid(Some(r.value))
    ensures r.Ok? ==> forall i :: 0 <= i < |r.value| && r.value[i].Some? ==> fresh(r.value[i].value.Object())
    ensures 0 < count && offset < 0 ==> r == Err(IndexOutOfBounds)
    decreases |data|, 3
  {
    var input := new ByteStream(data, offset);
    if count < 0 {
      return Err(NegativeArraySize);
    }
    var slots: seq<Option<ICurve>> := seq(count, _ => None);
    for i := 0 to count
      invariant |slots| == count && CurveSlotsValid(Some(slots)) && input.data == data
      invariant forall k :: 0 <= k < count && slots[k].Some? ==> fresh(slots[k].value.Object())
      invariant i == 0 ==> input.pos == offset
      invariant i > 0 ==> 0 <= offset
    {
      var t0 :- FindTag(input);
      var ttype := Create(t0);
      if ttype.Some? {
        var reader := GetTagReader(ttype.value);
        if reader.Some? {
          var tag :- ReadTag(reader.value, |data|, input);
          if tag.IsCurve() {
            slots := slots[i := Some(tag.AsCurve())];
          }
        }
      }
    }
    return Ok(slots);
  }

  /** The reader classes whose layout does not depend on the tag length, apart from the curves, the luts and the
      readers of named records. */
  predicate FixedLayout(kind: ReaderKind)
  {
    kind in {ColorantOrderReader, ChromaticityTypeReader, DateTimeReader, MeasurementReader, SignatureReader,
             ViewingConditionsReader, DescReader}
  }

  /** The reader classes that read a count and then that many named records. */
  predicate NamedRecords(kind: ReaderKind)
  {
    kind in {ColorantTableReader, MultiLocalizedUnicodeReader, NamedColor2Reader}
  }

  /** The tag a reader of a fixed layout makes of the data at p: the fields its layout puts there, from a 4-byte
      reserved word on. */
  predicate FixedLayoutAt(reader: TagReader, d: seq<byte>, p: int, t: Tag)
  {
    var tt := reader.tagType;
    0 <= p && p + 8 <= |d| &&
    match reader.kind
    case ColorantOrderReader =>
      var n := S32At(d, p + 4);
      0 <= n && t == ColorantOrder(tt, U32At(d, p), n, BytesOrEnd(d, p + 8, n))
    case ChromaticityTypeReader =>
      var n := U16LEAt(d, p + 4);
      p + 8 + 8 * n <= |d| && t == Chromaticity(tt, U32At(d, p), n, U16LEAt(d, p + 6), XyAt(d, p + 8, 2 * n))
    case DateTimeReader =>
      p + 16 <= |d| && t == DateTime(tt, U32At(d, p), Decode(d[p + 4..p + 16]))
    case MeasurementReader =>
      p + 32 <= |d| &&
      t == Measurement(tt, U32At(d, p), S32At(d, p + 4), FixedsAt(d, p + 8, 3), S32At(d, p + 20), FixedAt(d, p + 24),
                       S32At(d, p + 28))
    case SignatureReader =>
      t == Signature(tt, U32At(d, p), U32At(d, p + 4))
    case ViewingConditionsReader =>
      p + 32 <= |d| &&
      t == ViewingConditions(tt, U32At(d, p), FixedsAt(d, p + 4, 3), FixedsAt(d, p + 16, 3), S32At(d, p + 28))
    case DescReader =>
      var size := U32At(d, p + 4);
      0 <= S32(size) && p + 8 + S32(size) <= |d| && t == Desc(tt, U32At(d, p), size, d[p + 8..p + 8 + S32(size)])
    case _ => false
  }

  /** The tag a reader of named records makes of the data at p: the count, then every record at its place. */
  predicate NamedRecordsAt(reader: TagReader, d: seq<byte>, p: int, t: Tag)
  {
    var tt := reader.tagType;
    0 <= p && p + 8 <= |d| &&
    match reader.kind
    case ColorantTableReader =>
      var n := S32At(d, p + 4);
      0 <= n && p + 8 + 38 * n <= |d| &&
      t.ColorantTable? && t.tagType == tt && t.reserved == U32At(d, p) && t.colorantCount == n &&
      |t.colorantNames| == n && |t.pcsValues0| == n && |t.pcsValues1| == n && |t.pcsValues2| == n &&
      forall i :: 0 <= i < n ==>
        t.colorantNames[i] == d[p + 8 + 38 * i..p + 40 + 38 * i] && t.pcsValues0[i] == U16At(d, p + 40 + 38 * i) &&
        t.pcsValues1[i] == U16At(d, p + 42 + 38 * i) && t.pcsValues2[i] == U16At(d, p + 44 + 38 * i)
    case MultiLocalizedUnicodeReader =>
      var n := S32At(d, p + 4);
      p + 12 <= |d| && 0 <= n && NameEntriesFit(d, p + 12, n) &&
      var e := NameEntriesAt(d, p + 12, n);
      t == MultiLocalizedUnicode(tt, U32At(d, p), n, U32At(d, p + 8) % 256, e.0, e.1, e.2, e.3, e.4)
    case NamedColor2Reader =>
      p + 80 <= |d| &&
      var count, n := S32At(d, p + 8), S32At(d, p + 12);
      0 <= count && 0 <= n && p + 80 + count * (44 + 4 * n) <= |d| &&
      t.NamedColor2? && t.tagType == tt && t.reserved == U32At(d, p) && t.vendorSpecificFlag == U32At(d, p + 4) &&
      t.countOfNamedColors == count && t.numberOfDeviceCoordinates == n && t.prefix == d[p + 16..p + 48] &&
      t.suffix == d[p + 48..p + 80] && |t.colorNames| == count &&
      NamedColorsAt(d, p + 80, n, t.colorNames, t.colorPcsCoordinates, t.colorDeviceCoordinates)
    case _ => false
  }

  /** The tag a reader that sizes its array from the tag length makes of the data at p. */
  predicate LengthSizedAt(reader: TagReader, length: int32, d: seq<byte>, p: int, t: Tag)
  {
    var tt := reader.tagType;
    0 <= p && p + 4 <= |d| &&
    match reader.kind
    case DataReader =>
      var n := S32(length - 12);
      0 <= n && p + 8 + n <= |d| && t == Data(tt, U32At(d, p), S32At(d, p + 4), d[p + 8..p + 8 + n])
    case S15Fixed16ArrayReader => FixedArrayAt(tt, length, d, p, t)
    case U16Fixed16ArrayReader => FixedArrayAt(tt, length, d, p, t)
    case TextReader =>
      var n := S32(length - 8);
      0 <= n && p + 4 + n <= |d| && t == Text(tt, U32At(d, p), d[p + 4..p + 4 + n])
    case UInt16ArrayReader =>
      var n := Count(length, 8, 2);
      0 <= n && p + 4 + 2 * n <= |d| && t.UInt16Array? && t.tagType == tt && t.reserved == U32At(d, p) &&
      |t.values| == n && (n > 0 ==> t.values == U16sAt(d, p + 4, n))
    case UInt32ArrayReader =>
      var n := Count(length, 8, 4);
      0 <= n && p + 4 + 4 * n <= |d| && t.UInt32Array? && t.tagType == tt && t.reserved == U32At(d, p) &&
      |t.values| == n && (n > 0 ==> t.values == U32sAt(d, p + 4, n))
    case UInt64ArrayReader =>
      var n := Count(length, 8, 8);
      0 <= n && p + 4 + 8 * n <= |d| && t.UInt64Array? && t.tagType == tt && t.reserved == U32At(d, p) &&
      |t.values| == n && (n > 0 ==> t.values == S64sAt(d, p + 4, n))
    case UInt8ArrayReader =>
      var n := S32(length - 8);
      0 <= n && t == UInt8Array(tt, U32At(d, p), BytesOrEnd(d, p + 4, n))
    case XYZReader =>
      var n := Count(length, 8, 12);
      0 <= n && p + 4 + 12 * n <= |d| && t.XYZ? && t.tagType == tt && t.reserved == U32At(d, p) &&
      |t.xyzNumbers| == n && forall i :: 0 <= i < n ==> t.xyzNumbers[i] == FixedsAt(d, p + 4 + 12 * i, 3)
    case _ => false
  }

  /** An s15Fixed16 array of (length - 8) / 4 numbers read at p + 4. */
  predicate FixedArrayAt(tt: TagType, length: int32, d: seq<byte>, p: int, t: Tag)
    requires 0 <= p && p + 4 <= |d|
  {
    var n := Count(length, 8, 4);
    0 <= n && p + 4 + 4 * n <= |d| && t == S15Fixed16Array(tt, U32At(d, p), FixedsAt(d, p + 4, n))
  }

  /** The tag a curve or lut reader makes of the data at p, as far as its values go: the samples of a curve, the
      function type and parameters of a parametric curve, the header fields of a lut and, for a lutAtoBType, the
      header fields and the matrix read from the tag data after the header. */
  predicate CurveOrLutAt(reader: TagReader, length: int32, d: seq<byte>, p: int, t: Tag)
  {
    var tt := reader.tagType;
    match reader.kind
    case CurveReader =>
      0 <= p && p + 8 <= |d| &&
      var n := S32At(d, p + 4);
      0 <= n && (n > 1 ==> p + 8 + 2 * n <= |d|) &&
      t.CurveTag? && t.curve.tagType == tt && t.curve.values == Some(CurveSamplesAt(d, p + 8, n))
    case ParametricCurveReader =>
      0 <= p && p + 8 <= |d| &&
      var k := ParamCount(U16At(d, p + 4));
      p + 8 + 4 * k <= |d| &&
      t.ParametricTag? && t.parametric.tagType == tt && t.parametric.functionType == U16At(d, p + 4) &&
      t.parametric.params == FixedsAt(d, p + 8, k)
    case LutReader =>
      LutReadableAt(d, p, tt) && LutHeaderFieldsFrom(t, tt, LutHeaderAt(d, p))
    case LutAtoBReader =>
      0 <= p && p + 28 <= |d| &&
      var n := S32(length - 32);
      0 <= n && p + 28 + n <= |d| &&
      LutAtoBFieldsFrom(t, LutAtoBHeaderAt(d, p)) && LutAtoBMatrixFrom(t, LutAtoBHeaderAt(d, p), d[p + 28..p + 28 + n])
    case _ => false
  }

  /** The tag `TagReader.read` makes of the data at p, by the reader's class. */
  predicate ReadAt(reader: TagReader, length: int32, d: seq<byte>, p: int, t: Tag)
  {
    if FixedLayout(reader.kind) then FixedLayoutAt(reader, d, p, t)
    else if NamedRecords(reader.kind) then NamedRecordsAt(reader, d, p, t)
    else if LengthSized(reader.kind) then LengthSizedAt(reader, length, d, p, t)
    else CurveOrLutAt(reader, length, d, p, t)
  }

  /** `TagReader.read` for the readers of a fixed layout. */
  method ReadFixedLayoutTag(reader: TagReader, input: ByteStream) returns (r: Result<Tag>)
    requires FixedLayout(reader.kind)
    modifies input
    ensures r.Ok? ==> Produces(reader.kind, r.value) && r.value.tagType == reader.tagType && WellShaped(r.value)
    ensures r.Ok? ==> FixedLayoutAt(reader, input.data, old(input.pos), r.value)
  {
    var t := reader.tagType;
    match reader.kind
    case ColorantOrderReader => r := ReadColorantOrder(t, input);
    case ChromaticityTypeReader => r := ReadChromaticity(t, input);
    case DateTimeReader => r := ReadDateTime(t, input);
    case MeasurementReader => r := ReadMeasurement(t, input);
    case SignatureReader => r := ReadSignature(t, input);
    case ViewingConditionsReader => r := ReadViewingConditions(t, input);
    case DescReader => r := ReadDesc(t, input);
  }

  /** `TagReader.read` for the readers of named records. */
  method ReadNamedRecordsTag(reader: TagReader, input: ByteStream) returns (r: Result<Tag>)
    requires NamedRecords(reader.kind)
    modifies input
    ensures r.Ok? ==> Produces(reader.kind, r.value) && r.value.tagType == reader.tagType && WellShaped(r.value)
    ensures r.Ok? ==> NamedRecordsAt(reader, input.data, old(input.pos), r.value)
  {
    var t := reader.tagType;
    match reader.kind
    case ColorantTableReader => r := ReadColorantTable(t, input);
    case MultiLocalizedUnicodeReader => r := ReadMultiLocalizedUnicode(t, input);
    case NamedColor2Reader => r := ReadNamedColor2(t, input);
  }

  /** The reader classes that size their array from the tag length. */
  predicate LengthSized(kind: ReaderKind)
  {
    kind in {DataReader, S15Fixed16ArrayReader, U16Fixed16ArrayReader, TextReader, UInt16ArrayReader,
             UInt32ArrayReader, UInt64ArrayReader, UInt8ArrayReader, XYZReader}
  }

  /** `TagReader.read` for the readers that size their array from the tag length. */
  method ReadLengthSizedTag(reader: TagReader, length: int32, input: ByteStream) returns (r: Result<Tag>)
    requires LengthSized(reader.kind)
    modifies input
    ensures r.Ok? ==> Produces(reader.kind, r.value) && r.value.tagType == reader.tagType && WellShaped(r.value)
    ensures r.Ok? ==> LengthSizedAt(reader, length, input.data, old(input.pos), r.value)
  {
    var t := reader.tagType;
    match reader.kind
    case DataReader => r := ReadData(t, length, input);
    case S15Fixed16ArrayReader => r := ReadFixedArray(t, length, input);
    case U16Fixed16ArrayReader => r := ReadFixedArray(t, length, input);
    case TextReader => r := ReadText(t, length, input);
    case UInt16ArrayReader => r := ReadUInt16Array(t, length, input);
    case UInt32ArrayReader => r := ReadUInt32Array(t, length, input);
    case UInt64ArrayReader => r := ReadUInt64Array(t, length, input);
    case UInt8ArrayReader => r := ReadUInt8Array(t, length, input);
    case XYZReader => r := ReadXYZ(t, length, input);
  }

  /** `TagReader.read` called on a reader: the reader's class decides the layout, its `tagType` the tag's type
      (a lutAtoBType reader always makes a lutAtoBType tag). */
  method ReadTag(reader: TagReader, length: int32, input: ByteStream) returns (r: Result<Tag>)
    modifies input
    ensures r.Ok? ==> Produces(reader.kind, r.value)
    ensures r.Ok? ==> r.value.TypeOf() == if reader.kind == LutAtoBReader then LutAToBType else reader.tagType
    ensures r.Ok? ==> WellShaped(r.value)
    ensures r.Ok? && r.value.IsCurve() ==> fresh(r.value.AsCurve().Object()) && r.value.AsCurve().Memo() == null
    ensures r.Ok? ==> ReadAt(reader, length, input.data, old(input.pos), r.value)
    decreases |input.data|, 2
  {
    if FixedLayout(reader.kind) {
      r := ReadFixedLayoutTag(reader, input);
    } else if NamedRecords(reader.kind) {
      r := ReadNamedRecordsTag(reader, input);
    } else if LengthSized(reader.kind) {
      r := ReadLengthSizedTag(reader, length, input);
    } else {
      r := ReadCurveOrLutTag(reader, length, input);
    }
  }

  /** `TagReader.read` for the curve and lut readers, the only ones that build objects or nest other tags. */
  method ReadCurveOrLutTag(reader: TagReader, length: int32, input: ByteStream) returns (r: Result<Tag>)
    requires !FixedLayout(reader.kind) && !NamedRecords(reader.kind) && !LengthSized(reader.kind)
    modifies input
    ensures r.Ok? ==> Produces(reader.kind, r.value)
    ensures r.Ok? ==> r.value.TypeOf() == if reader.kind == LutAtoBReader then LutAToBType else reader.tagType
    ensures r.Ok? ==> WellShaped(r.value)
    ensures r.Ok? && r.value.IsCurve() ==> fresh(r.value.AsCurve().Object()) && r.value.AsCurve().Memo() == null
    ensures r.Ok? ==> CurveOrLutAt(reader, length, input.data, old(input.pos), r.value)
    decreases |input.data|, 1
  {
    var t := reader.tagType;
    match reader.kind
    case CurveReader => r := ReadCurve(t, input);
    case ParametricCurveReader => r := ReadParametricCurve(t, input);
    case LutReader => r := ReadLut(t, input);
    case LutAtoBReader => r := ReadLutAtoB(length, input);
  }

  /** `LutAtoB_Reader.read`: the header, the remaining length - 32 bytes of tag data, then each section whose
      offset is not zero, read from that data at the offset less 32: B curves and M curves (one per output
      channel), A curves (one per input channel), the matrix and the CLUT. */
  method ReadLutAtoB(length: int32, input: ByteStream) returns (r: Result<Tag>)
    modifies input
    ensures r.Ok? ==> old(input.CanRead(28)) && 0 <= S32(length - 32) && old(input.CanRead(28 + S32(length - 32)))
    ensures old(input.CanRead(28)) && S32(length - 32) < 0 ==> r == Err(NegativeArraySize)
    ensures r.Ok? ==> LutAtoBFieldsFrom(r.value, LutAtoBHeaderAt(input.data, old(input.pos)))
    ensures r.Ok? ==> var p := old(input.pos); var h := LutAtoBHeaderAt(input.data, p);
      LutAtoBMatrixFrom(r.value, h, input.data[p + 28..p + 28 + S32(length - 32)])
    ensures r.Ok? ==> WellShaped(r.value)
    ensures r.Ok? && r.value.clutSection.Some? ==> var p := old(input.pos); var h := LutAtoBHeaderAt(input.data, p);
      ClutAt(r.value.clutSection.value, input.data[p + 28..p + 28 + S32(length - 32)], SectionOffset(h.offsets[3]),
             h.inputs, h.outputs)
    decreases |input.data|, 0
  {
    ghost var p := input.pos;
    var h :- ReadLutAtoBHeader(input);
    assert h == LutAtoBHeaderAt(input.data, p);
    var n := S32(length - 32);
    if n < 0 {
      return Err(NegativeArraySize);
    }
    var data :- input.ReadBytes(n);
    assert data == input.data[p + 28..p + 28 + n] && |data| < |input.data|;
    r := ReadLutAtoBSections(h, data);
  }

  /** The sections of a lutAtoBType after its header, read from the tag data in the order B curves, M curves,
      A curves, matrix, CLUT. */
  method ReadLutAtoBSections(h: LutAtoBHeader, data: seq<byte>) returns (r: Result<Tag>)
    requires |data| < TWO_31 && |h.offsets| == 5
    ensures r.Ok? ==> LutAtoBFieldsFrom(r.value, h) && LutAtoBMatrixFrom(r.value, h, data) && WellShaped(r.value)
    ensures r.Ok? && r.value.clutSection.Some? ==>
      ClutAt(r.value.clutSection.value, data, SectionOffset(h.offsets[3]), h.inputs, h.outputs)
    decreases |data|, 5
  {
    var bCurves :- ReadCurveSection(h.offsets[0], h.outputs, data);
    var mCurves :- ReadCurveSection(h.offsets[2], h.outputs, data);
    var aCurves :- ReadCurveSection(h.offsets[4], h.inputs, data);
    var matrix :- ReadMatrixSection(h.offsets[1], data);
    var clut :- ReadClutSection(h.offsets[3], data, h.inputs, h.outputs);
    var t := LutAtoB(LutAToBType, h.reserved, h.inputs, h.outputs, h.padding2, h.offsets[0], h.offsets[1],
                      h.offsets[2], h.offsets[3], h.offsets[4], bCurves, mCurves, aCurves, matrix, clut);
    assert LutAtoBMatrixFrom(t, h, data);
    return Ok(t);
  }

  /** A curve set of a lutAtoBType: absent when its offset is not positive, else `readCurves` at the offset less
      32 for one curve per channel. */
  method ReadCurveSection(tagOffset: int, count: int, data: seq<byte>) returns (r: Result<Option<seq<Option<ICurve>>>>)
    requires |data| < TWO_31
    ensures r.Ok? ==> (r.value.Some? <==> tagOffset > 0) && (r.value.Some? ==> |r.value.value| == count)
    ensures r.Ok? ==> CurveSlotsValid(r.value)
    ensures tagOffset > 0 && count < 0 ==> r == Err(NegativeArraySize)
    decreases |data|, 4
  {
    if tagOffset <= 0 {
      return Ok(None);
    }
    var c :- ReadCurves(SectionOffset(tagOffset), count, data);
    return Ok(Some(c));
  }

  /** The matrix of a lutAtoBType: twelve zeros when its offset is not positive, else `readMatrix` at the offset
      less 32. */
  method ReadMatrixSection(tagOffset: int, data: seq<byte>) returns (r: Result<seq<real>>)
    ensures tagOffset <= 0 ==> r == Ok(seq(12, _ => 0.0))
    ensures tagOffset > 0 ==> var q := SectionOffset(tagOffset);
      (r.Ok? <==> 0 <= q && q + 48 <= |data|) && (r.Ok? ==> r.value == FixedsAt(data, q, 12))
  {
    if tagOffset <= 0 {
      return Ok(seq(12, _ => 0.0));
    }
    r := ReadMatrix(SectionOffset(tagOffset), data);
  }

  /** The CLUT of a lutAtoBType: absent when its offset is not positive, else `readClutInfo` at the offset less 32
      for the tag's channel counts. */
  method ReadClutSection(tagOffset: int, data: seq<byte>, inputCount: int, outputCount: int)
    returns (r: Result<Option<CLUT>>)
    ensures r.Ok? ==> (r.value.Some? <==> tagOffset > 0)
    ensures r.Ok? && r.value.Some? ==> var q := SectionOffset(tagOffset);
      fresh(r.value.value) && r.value.value.Valid() && r.value.value.inputCount == inputCount &&
      r.value.value.outputCount == outputCount && 0 <= q && r.value.value.gridPointCount == GridPointsAt(data, q)
    ensures r.Ok? && r.value.Some? ==> ClutAt(r.value.value, data, SectionOffset(tagOffset), inputCount, outputCount)
    ensures tagOffset > 0 && SectionOffset(tagOffset) < 0 ==> r == Err(IndexOutOfBounds)
  {
    if tagOffset <= 0 {
      return Ok(None);
    }
    var c :- ReadClutInfo(SectionOffset(tagOffset), data, inputCount, outputCount);
    return Ok(Some(c));
  }
}
