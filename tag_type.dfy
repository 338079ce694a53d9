/** The registry of tag types and tag signatures: 32-bit values, first-match lookup and reader binding. */
module TagTypes {
  import opened Wrappers
  import opened JavaNum
  import opened SignatureUtils

  /** An enum constant, identified by its position in declaration order (`ordinal()`):
      26 tag types (0..25), then 38 tag signatures (26..63). */
  type TagType = k: int | 0 <= k < 64

  const ColorantOrderType: TagType := 0
  const ChromaticityType: TagType := 1
  const ColorantTableType: TagType := 2
  const CurveType: TagType := 3
  const DataType: TagType := 4
  const DateTimeType: TagType := 5
  const Lut16Type: TagType := 6
  const Lut8Type: TagType := 7
  const LutAToBType: TagType := 8
  const LutBToAType: TagType := 9
  const MeasurementType: TagType := 10
  const MultiLocalizedUnicodeType: TagType := 11
  const NamedColor2Type: TagType := 12
  const ParametricCurveType: TagType := 13
  const ProfileSequenceDescType: TagType := 14
  const ResponseCurveSet16Type: TagType := 15
  const S15Fixed16ArrayType: TagType := 16
  const SignatureType: TagType := 17
  const TextType: TagType := 18
  const U16Fixed16ArrayType: TagType := 19
  const UInt16ArrayType: TagType := 20
  const UInt32ArrayType: TagType := 21
  const UInt64ArrayType: TagType := 22
  const UInt8ArrayType: TagType := 23
  const ViewingConditionsType: TagType := 24
  const XYZType: TagType := 25
  const AToB0Sig: TagType := 26
  const AToB1Sig: TagType := 27
  const AToB2Sig: TagType := 28
  const BlueMatrixColumnSig: TagType := 29
  const BlueTrcSig: TagType := 30
  const BToA0Sig: TagType := 31
  const BToA1Sig: TagType := 32
  const BToA2Sig: TagType := 33
  const CalibrationDateTimeSig: TagType := 34
  const CharTargetSig: TagType := 35
  const ChromaticAdaptationSig: TagType := 36
  const ChromaticitySig: TagType := 37
  const ColorantOrderSig: TagType := 38
  const ColorantTableSig: TagType := 39
  const ColorantTableOutSig: TagType := 40
  const CopyrightSig: TagType := 41
  const DeviceMfgDescSig: TagType := 42
  const DeviceModelDescSig: TagType := 43
  const GamutSig: TagType := 44
  const GrayTrcSig: TagType := 45
  const GreenMatrixColumnSig: TagType := 46
  const GreenTrcSig: TagType := 47
  const LuminanceSig: TagType := 48
  const MeasurementSig: TagType := 49
  const MediaBlackPointSig: TagType := 50
  const MediaWhitePointSig: TagType := 51
  const NamedColor2Sig: TagType := 52
  const OutputResponseSig: TagType := 53
  const Preview0Sig: TagType := 54
  const Preview1Sig: TagType := 55
  const Preview2Sig: TagType := 56
  const ProfileDescriptionSig: TagType := 57
  const ProfileSequenceDescriptionSig: TagType := 58
  const RedMatrixColumnSig: TagType := 59
  const RedTrcSig: TagType := 60
  const TechnologySig: TagType := 61
  const ViewingConditionDescSig: TagType := 62
  const ViewingConditionsSig: TagType := 63

  /** The value of the constant at position k of `values()`. */
  function ValueAt(k: TagType): (r: int)
    ensures 0 <= r < TWO_32
  {
    if k < 32 then
      if k < 16 then
        if k < 8 then
          if k < 4 then
            if k < 2 then
              if k < 1 then
                0x636c726f
              else
                0x6368726D
            else
              if k < 3 then
                0x636c7274
              else
                0x63757276
          else
            if k < 6 then
              if k < 5 then
                0x64617461
              else
                0x6474696D
            else
              if k < 7 then
                0x6D667432
              else
                0x6D667431
        else
          if k < 12 then
            if k < 10 then
              if k < 9 then
                0x6D414220
              else
                0x6D424120
            else
              if k < 11 then
                0x6D656173
              else
                0x6D6C7563
          else
            if k < 14 then
              if k < 13 then
                0x6E636C32
              else
                0x70617261
            else
              if k < 15 then
                0x70736571
              else
                0x72637332
      else
        if k < 24 then
          if k < 20 then
            if k < 18 then
              if k < 17 then
                0x73663332
              else
                0x73696720
            else
              if k < 19 then
                0x74657874
              else
                0x75663332
          else
            if k < 22 then
              if k < 21 then
                0x75693136
              else
                0x75693332
            else
              if k < 23 then
                0x75693634
              else
                0x75693038
        else
          if k < 28 then
            if k < 26 then
              if k < 25 then
                0x76696577
              else
                0x58595A20
            else
              if k < 27 then
                0x41324230
              else
                0x41324231
          else
            if k < 30 then
              if k < 29 then
                0x41324232
              else
                0x6258595A
            else
              if k < 31 then
                0x62545243
              else
                0x42324130
    else
      if k < 48 then
        if k < 40 then
          if k < 36 then
            if k < 34 then
              if k < 33 then
                0x42324131
              else
                0x42324132
            else
              if k < 35 then
                0x63616C74
              else
                0x74617267
          else
            if k < 38 then
              if k < 37 then
                0x63686164
              else
                0x6368726D
            else
              if k < 39 then
                0x636C726F
              else
                0x636C7274
        else
          if k < 44 then
            if k < 42 then
              if k < 41 then
                0x636C6F74
              else
                0x63707274
            else
              if k < 43 then
                0x646D6E64
              else
                0x646D6464
          else
            if k < 46 then
              if k < 45 then
                0x67616D74
              else
                0x6B545243
            else
              if k < 47 then
                0x6758595A
              else
                0x67545243
      else
        if k < 56 then
          if k < 52 then
            if k < 50 then
              if k < 49 then
                0x6C756D69
              else
                0x6D656173
            else
              if k < 51 then
                0x626B7074
              else
                0x77747074
          else
            if k < 54 then
              if k < 53 then
                0x6E636C32
              else
                0x72657370
            else
              if k < 55 then
                0x70726530
              else
                0x70726531
        else
          if k < 60 then
            if k < 58 then
              if k < 57 then
                0x70726532
              else
                0x64657363
            else
              if k < 59 then
                0x70736571
              else
                0x7258595A
          else
            if k < 62 then
              if k < 61 then
                0x72545243
              else
                0x74656368
            else
              if k < 63 then
                0x76756564
              else
                0x76696577
  }

  /** The 32-bit value each constant is declared with. */
  function Value(t: TagType): (r: int)
    ensures 0 <= r < TWO_32
  {
    ValueAt(t)
  }

  /** The reader classes; `DescReader` exists but no constant is bound to it. */
  datatype ReaderKind =
      ColorantOrderReader
    | ChromaticityTypeReader
    | ColorantTableReader
    | CurveReader
    | DataReader
    | DateTimeReader
    | LutReader
    | LutAtoBReader
    | MeasurementReader
    | MultiLocalizedUnicodeReader
    | NamedColor2Reader
    | ParametricCurveReader
    | S15Fixed16ArrayReader
    | SignatureReader
    | TextReader
    | U16Fixed16ArrayReader
    | UInt16ArrayReader
    | UInt32ArrayReader
    | UInt64ArrayReader
    | UInt8ArrayReader
    | ViewingConditionsReader
    | XYZReader
    | DescReader

  /** A reader instance together with the `tagType` field its constant's constructor sets. */
  datatype TagReader = TagReader(kind: ReaderKind, tagType: TagType)

  /** The reader class a constant is declared with, if any. */
  function ReaderKindOf(t: TagType): Option<ReaderKind>
  {
    if t < 32 then
      if t < 16 then
        if t < 8 then
          if t < 4 then
            if t < 2 then
              if t < 1 then
                Some(ColorantOrderReader)
              else
                Some(ChromaticityTypeReader)
            else
              if t < 3 then
                Some(ColorantTableReader)
              else
                Some(CurveReader)
          else
            if t < 6 then
              if t < 5 then
                Some(DataReader)
              else
                Some(DateTimeReader)
            else
              if t < 7 then
                Some(LutReader)
              else
                Some(LutReader)
        else
          if t < 12 then
            if t < 10 then
              if t < 9 then
                Some(LutAtoBReader)
              else
                Some(LutAtoBReader)
            else
              if t < 11 then
                Some(MeasurementReader)
              else
                Some(MultiLocalizedUnicodeReader)
          else
            if t < 14 then
              if t < 13 then
                Some(NamedColor2Reader)
              else
                Some(ParametricCurveReader)
            else
              if t < 15 then
                None
              else
                None
      else
        if t < 24 then
          if t < 20 then
            if t < 18 then
              if t < 17 then
                Some(S15Fixed16ArrayReader)
              else
                Some(SignatureReader)
            else
              if t < 19 then
                Some(TextReader)
              else
                Some(U16Fixed16ArrayReader)
          else
            if t < 22 then
              if t < 21 then
                Some(UInt16ArrayReader)
              else
                Some(UInt32ArrayReader)
            else
              if t < 23 then
                Some(UInt64ArrayReader)
              else
                Some(UInt8ArrayReader)
        else
          if t < 28 then
            if t < 26 then
              if t < 25 then
                Some(ViewingConditionsReader)
              else
                Some(XYZReader)
            else
              if t < 27 then
                None
              else
                None
          else
            if t < 30 then
              if t < 29 then
                None
              else
                None
            else
              if t < 31 then
                None
              else
                None
    else
      if t < 48 then
        if t < 40 then
          if t < 36 then
            if t < 34 then
              if t < 33 then
                None
              else
                None
            else
              if t < 35 then
                None
              else
                None
          else
            if t < 38 then
              if t < 37 then
                None
              else
                None
            else
              if t < 39 then
                None
              else
                None
        else
          if t < 44 then
            if t < 42 then
              if t < 41 then
                None
              else
                None
            else
              if t < 43 then
                None
              else
                None
          else
            if t < 46 then
              if t < 45 then
                None
              else
                None
            else
              if t < 47 then
                None
              else
                None
      else
        if t < 56 then
          if t < 52 then
            if t < 50 then
              if t < 49 then
                None
              else
                None
            else
              if t < 51 then
                None
              else
                None
          else
            if t < 54 then
              if t < 53 then
                None
              else
                None
            else
              if t < 55 then
                None
              else
                None
        else
          if t < 60 then
            if t < 58 then
              if t < 57 then
                None
              else
                Some(MultiLocalizedUnicodeReader)
            else
              if t < 59 then
                None
              else
                None
          else
            if t < 62 then
              if t < 61 then
                None
              else
                None
            else
              if t < 63 then
                None
              else
                None
  }

  /** `getTagReader()`: the reader a constant was built with; its `tagType` is that constant. */
  function GetTagReader(t: TagType): (r: Option<TagReader>)
    ensures r.Some? ==> r.value.tagType == t
    ensures r.None? <==> (IsSignature(t) && t != ProfileDescriptionSig) || t == ProfileSequenceDescType || t == ResponseCurveSet16Type
  {
    match ReaderKindOf(t)
    case Some(kind) => Some(TagReader(kind, t))
    case None => None
  }

  /** The constants declared in the second group (tag signatures rather than tag types). */
  predicate IsSignature(t: TagType)
  {
    t >= 26
  }

  /** The first constant, at position i or later in declaration order, whose value is `value`. */
  function LookupFrom(value: int, i: nat): Option<TagType>
    requires i <= 64
    decreases 64 - i
  {
    if i == 64 then None
    else if Value(i) == value then Some(i)
    else LookupFrom(value, i + 1)
  }

  /** What `create(value)` returns. */
  function Lookup(value: int): Option<TagType>
  {
    LookupFrom(value, 0)
  }

  /** The search from position i finds the first later constant with the value, and none when there is none. */
  lemma {:induction false} LookupFromFirst(value: int, i: nat)
    requires i <= 64
    ensures LookupFrom(value, i).Some? ==>
      var t := LookupFrom(value, i).value;
      i <= t && Value(t) == value && forall u: TagType :: i <= u < t ==> Value(u) != value
    ensures LookupFrom(value, i).None? <==> forall u: TagType :: i <= u ==> Value(u) != value
    decreases 64 - i
  {
    if i < 64 {
      LookupFromFirst(value, i + 1);
    }
  }

  /** create(v) is the first constant in declaration order whose value is v, and null when no constant has it. */
  lemma LookupFirstMatch(value: int, t: TagType)
    ensures Lookup(value) == Some(t) <==> Value(t) == value && forall u: TagType :: u < t ==> Value(u) != value
    ensures Lookup(value).None? <==> forall u: TagType :: Value(u) != value
  {
    LookupFromFirst(value, 0);
  }

  /** `create(long)`: a linear search over `values()` that stops at the first equal value. */
  method Create(value: int) returns (r: Option<TagType>)
    ensures r == Lookup(value)
  {
    for i := 0 to 64
      invariant forall u: TagType :: u < i ==> Value(u) != value
      invariant Lookup(value) == LookupFrom(value, i)
    {
      if value == Value(i) {
        return Some(i);
      }
    }
    return None;
  }

  /** The constants that share their value with an earlier constant. */
  predicate Shadowed(t: TagType)
  {
    t in {ChromaticitySig, ColorantOrderSig, ColorantTableSig, MeasurementSig,
          NamedColor2Sig, ProfileSequenceDescriptionSig, ViewingConditionsSig}
  }

  /** create never returns a constant whose value an earlier constant already has. */
  lemma ShadowedNeverCreated(value: int)
    ensures Lookup(value).Some? ==> !Shadowed(Lookup(value).value)
  {
    if Lookup(value).Some? {
      var t := Lookup(value).value;
      LookupFirstMatch(value, t);
      // Each shadowed constant has the value of an earlier tag type, which the lookup meets first.
      assert Value(ChromaticitySig) == Value(ChromaticityType) && Value(ColorantOrderSig) == Value(ColorantOrderType) &&
             Value(ColorantTableSig) == Value(ColorantTableType) && Value(MeasurementSig) == Value(MeasurementType) &&
             Value(NamedColor2Sig) == Value(NamedColor2Type) &&
             Value(ProfileSequenceDescriptionSig) == Value(ProfileSequenceDescType) &&
             Value(ViewingConditionsSig) == Value(ViewingConditionsType);
    }
  }

  /** Each colliding value resolves to the tag type, which is declared before the tag signature. */
  lemma CollisionsResolveToType()
    ensures Lookup(0x6368726D) == Some(ChromaticityType)
    ensures Lookup(0x636C726F) == Some(ColorantOrderType)
    ensures Lookup(0x636C7274) == Some(ColorantTableType)
    ensures Lookup(0x6D656173) == Some(MeasurementType)
    ensures Lookup(0x6E636C32) == Some(NamedColor2Type)
    ensures Lookup(0x70736571) == Some(ProfileSequenceDescType)
    ensures Lookup(0x76696577) == Some(ViewingConditionsType)
  {
    assert LookupFrom(0x6D656173, 0) == LookupFrom(0x6D656173, 8);
    assert LookupFrom(0x6E636C32, 0) == LookupFrom(0x6E636C32, 8);
    assert LookupFrom(0x70736571, 0) == LookupFrom(0x70736571, 8);
    assert LookupFrom(0x76696577, 0) == LookupFrom(0x76696577, 8);
    assert LookupFrom(0x76696577, 8) == LookupFrom(0x76696577, 16);
    assert LookupFrom(0x76696577, 16) == LookupFrom(0x76696577, 24);
  }

  /** A payload that starts with 'desc' is the profile description signature, read as multi-localized unicode. */
  lemma DescResolvesToDescription()
    ensures Lookup(0x64657363) == Some(ProfileDescriptionSig)
    ensures GetTagReader(ProfileDescriptionSig) == Some(TagReader(MultiLocalizedUnicodeReader, ProfileDescriptionSig))
  {
    assert LookupFrom(0x64657363, 0) == LookupFrom(0x64657363, 8);
    assert LookupFrom(0x64657363, 8) == LookupFrom(0x64657363, 16);
    assert LookupFrom(0x64657363, 16) == LookupFrom(0x64657363, 24);
    assert LookupFrom(0x64657363, 24) == LookupFrom(0x64657363, 32);
    assert LookupFrom(0x64657363, 32) == LookupFrom(0x64657363, 40);
    assert LookupFrom(0x64657363, 40) == LookupFrom(0x64657363, 48);
    assert LookupFrom(0x64657363, 48) == LookupFrom(0x64657363, 56);
  }

  /** Shifting a number left by 8 bits (modulo 2^64) moves each of its four low bytes up one place. */
  lemma ShiftLeftByte(v: int, w: int)
    requires (w - v * 256) % TWO_64 == 0
    ensures ByteOf(w, 0) == ByteOf(v, 1) && ByteOf(w, 1) == ByteOf(v, 2) && ByteOf(w, 2) == ByteOf(v, 3)
  {
    var q := (w - v * 256) / 0x1_0000_0000_0000_0000;
    assert w == v * 256 + q * 0x1_0000_0000_0000_0000;
    assert w / 0x100_0000 == v / 0x1_0000 + q * 0x100_0000_0000;
    assert w / 0x1_0000 == v / 0x100 + q * 0x1_0000_0000_0000;
    assert w / 0x100 == v + q * 0x100_0000_0000_0000;
    LowByteAddMultiple(v / 0x1_0000, q * 0x1_0000_0000);
    LowByteAddMultiple(v / 0x100, q * 0x100_0000_0000);
    LowByteAddMultiple(v, q * 0x1_0000_0000_0000);
  }

  /** `toString(long)`: takes bits 24..31 of the long, then shifts it left by 8, four times. */
  method TypeToString(value: int64) returns (s: string)
    ensures s == SignatureString(value)
  {
    var chars := new char[4];
    var v: int := value;
    for i := 0 to 4
      invariant forall j :: 0 <= j < 4 - i ==> ByteOf(v, j) == ByteOf(value, i + j)
      invariant forall k :: 0 <= k < i ==> chars[k] == ByteToChar(ByteOf(value, k))
    {
      chars[i] := ((v / 0x100_0000) % 256) as char;
      assert ByteOf(v, 0) == (v / 0x100_0000) % 256;
      var shifted := S64(v * 256);
      ShiftLeftByte(v, shifted);
      v := shifted;
    }
    s := chars[..];
  }
}
