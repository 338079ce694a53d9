# ICC profile reader, modelled in Dafny

A model of the core of a Java library that reads ICC colour profiles (ICC.1:2010). It covers:

- the 128-byte profile header (`ICC_Header`) with its profile class, colour space and rendering intent lookups;
- the tag directory (`TagTable`), and the dispatch of each tag's bytes to the reader its payload signature selects (`TagType`, `TagReader`);
- every tag reader: chromaticity, colorant order and table, curve, data, date-time, lut8/lut16, lutAToB/lutBToA, measurement, multiLocalizedUnicode, namedColor2, the number arrays, signature, text, textDescription, viewing conditions, XYZ;
- the tone curves (`Curve`, `ParametricCurve`) and their memoised inverses;
- the colour transforms that map device colours to the profile connection space and back (`ColorTransformer.CT1`, `CT3`);
- the profile object itself (`ICCProfile`): construction from the bytes of a profile and its getters;
- the signature helpers of `SignatureUtils`.

How the Java is represented:

- Every exception the Java code can throw is a `Result` error: `EndOfData`, `IndexOutOfBounds`, `NegativeArraySize`, `NullPointer`, `ClassCast` or `IllegalArgument`.
- Streams are the class `Streams.ByteStream`: the profile's bytes plus a read position.
  - A fixed-width read fails past the end of the data.
  - `read()` returns -1 there.
  - `read(byte[])` fills as far as the data goes.
- Objects the Java code changes in place are Dafny classes with `modifies` clauses: the header's cached strings, the tag table's entries, the curves and their memoised inverses, the CLUTs and the profile.
- Values the Java code never changes after construction are datatypes.
- Java `int`/`long` wrap-around, the `(int)` cast of a float, and integer division that truncates toward zero are written out in `JavaNum`.
- Floats are `real`.

Several behaviours of the code are captured as it is written, and proved as lemmas:

- `ProfileColorSpaceType.get` upper-cases the signature before its `valueOf` lookup. The YCbCr signature "YCbr" therefore becomes "CS_YCBR", a name no constant has, so `get` throws for it (`ProfileColorSpaces.GetYcc`). It is listed under "## Findings", with the corrected lookup `ProfileColorSpaces.CorrectedGet`; the header reader keeps the lookup as written.
- `readClut16` divides the four-byte `read_u16Fixed16` value by 65535 once more. No 16-bit CLUT cell reaches 1 in size (`LutReaders.Clut16CellBelowOne`).
- The fixed-point helpers divide by 65535, not by the 65536 that section 4.6 of ICC.1:2010 implies (`TagReaders.FixedDivisor`).
- `readTags` picks the reader from the payload's own signature, not from the directory's signature. The payload 'desc' resolves to the `PROFILE_DESCRIPTION_SIG` constant, whose reader is the multiLocalizedUnicode one (`TagTypes.DescResolvesToDescription`). Each of the seven values that a tag type shares with a tag signature resolves to the tag type, which is declared first (`TagTypes.CollisionsResolveToType`).
- The table inverse of `Curve` throws when it stores at a negative slot. That happens at a row whose fill index `(int) (sample * (N - 1))` is larger than the previous row's, when the previous row's is -2 or less. A sample below 0 is not enough: [-2, 0.5] throws, while [-0.1, 0.5, 1] and [0.5, -1] do not (`Curves.NegativeSampleFaults`). `ParametricCurve.inverse` stores the raw sample index, not a fraction, and throws for any sample at which the curve reaches 1 (`Curves.SampleAtOneFaults`).
- The names of a multiLocalizedUnicode tag are read back to back. The offsets in their records are stored but never used (`TagReaders.NamesBackToBack`).

## Model

| member | source | states |
|---|---|---|
| ColorTransformers.Rows | com/smartg/icc/ColorTransformer.java:83-96 | the 3x3 matrix of `CT3` has entry [i][0] from the red column's component i, [i][1] from green and [i][2] from blue |
| ColorTransformers.Apply | com/smartg/icc/ColorTransformer.java:126-128 | the matrix arithmetic of `toPCS` and `fromPCS`: component k is row k of the matrix dotted with the vector; `ApplyTimes` and `UndoesApply` state its laws |
| ColorTransformers.Times | com/smartg/icc/ColorTransformer.java:95-96 | the product of two matrices, each column of the second mapped by the first; `Undoes` says the inverse from `cm.inverse()` times the matrix is the identity |
| ColorTransformers.ApplyTimes | com/smartg/icc/ColorTransformer.java:136-169 | applying a product of two matrices is applying one after the other |
| ColorTransformers.UndoesApply | com/smartg/icc/ColorTransformer.java:100-110 | an inverse matrix that undoes the forward matrix gives back every vector the forward matrix maps |
| ColorTransformers.Clamp | com/smartg/icc/ColorTransformer.java:149-163 | the clamp of `fromPCS` always lies in [0, 1] and leaves a value already in [0, 1] unchanged |
| ColorTransformers.ToPcs | com/smartg/icc/ColorTransformer.java:51-134 | `toPCS` gives one component for `CT1` and three for `CT3` |
| ColorTransformers.FromPcs | com/smartg/icc/ColorTransformer.java:58-169 | `fromPCS` gives as many components as the transform's arity, and for `CT3` each lies in [0, 1] |
| ColorTransformers.FromPcsToPcs | com/smartg/icc/ColorTransformer.java:117-169 | `fromPCS(toPCS(v)) == v` for a device colour in [0, 1]^3, when the inverse matrix undoes the matrix and each inverse curve undoes its curve at v |
| ColorTransformers.GrayFromPcsToPcs | com/smartg/icc/ColorTransformer.java:51-63 | `fromPCS(toPCS(v)) == v` for the grey transform, which does not clamp, for a grey value in [0, 1] whose curve is the identity, or a gamma that pow undoes, with its inverse as `inverse()` makes it |
| ColorTransformers.InvertibleFromPcsToPcs | com/smartg/icc/ColorTransformer.java:117-169 | `fromPCS(toPCS(v)) == v` for a device colour in [0, 1]^3 when the inverse matrix undoes the matrix and each of the three curves is the identity, or a gamma that pow undoes, with its inverse as `inverse()` makes it |
| ColorTransformers.SameObject | com/smartg/icc/ColorTransformer.java:112-114 | two curve references to the same object are the same curve, so inverting one keeps the other consistent |
| ColorTransformers.NewCT1 | com/smartg/icc/ColorTransformer.java:46-49 | a null curve throws `NullPointerException`; otherwise the transform keeps the curve and its inverse, computed once; an inverse that already exists is reused |
| ColorTransformers.InverseOf | com/smartg/icc/ColorTransformer.java:112-114 | `trc.inverse()`: null throws; otherwise the result is the curve's memoised inverse, and it fails only when that inverse cannot be built |
| ColorTransformers.NewCT3 | com/smartg/icc/ColorTransformer.java:74-115 | the columns are read in order, so the first null or short column decides the exception; then the inverse matrix and the three inverse curves; the transform holds the nine coefficients, the inverse matrix and all six curves |
| ColorTransformers.InvertCurves | com/smartg/icc/ColorTransformer.java:112-114 | the red, green and blue inverses in that order: a null curve throws `NullPointerException`, a failing inverse `IndexOutOfBounds`; a curve passed twice is inverted once |
| ColorTransformers.ToPcsInto | com/smartg/icc/ColorTransformer.java:117-134 | a short src throws before dst changes; otherwise dst receives `ToPcs` of src, component by component up to its length, and is returned |
| ColorTransformers.FromPcsInto | com/smartg/icc/ColorTransformer.java:136-169 | the same for `fromPCS` and `FromPcs` |
| ColorTransformers.WriteOut | com/smartg/icc/ColorTransformer.java:117-134 | the stores into dst: slot k gets component k for every k below both lengths, the rest of dst is unchanged, and a dst shorter than the output throws |
| Curves.InterpolateEnds | com/smartg/icc/Curve.java:123-127 | `interpolate` passes through both of its end points |
| Curves.InterpolateBetween | com/smartg/icc/Curve.java:123-127 | between its end points, `interpolate` stays between the two end values, in either order |
| Curves.Interpolate | com/smartg/icc/Curve.java:123-127 | `interpolate`: the point at x on the line through (smin, dmin) and (smax, dmax); its end points and its range are stated by `InterpolateEnds` and `InterpolateBetween` |
| Curves.Curve.Get | com/smartg/icc/Curve.java:94-121 | `get(a)`: a for the identity, `pow(a, gamma)` for a gamma; for a table, the last sample above 1, the first below 0, the last or first sample when `(int) (a * N)` is at least N or at most 0, and otherwise `interpolate` between samples index - 1 and index over the grid points index / N and (index + 1) / N; `TableGetInUnit` and `SimpleInverseUndoes` state what it gives |
| Curves.TableGetInUnit | com/smartg/icc/Curve.java:94-121 | for a table whose samples lie in [0, 1], `get` lies in [0, 1] for every argument: the interpolated point lies between two neighbouring samples |
| Curves.ParametricCurve.Get | com/smartg/icc/ParametricCurve.java:83-130 | `get(x)` for the five function types of section 10.15 of ICC.1:2010, the threshold `x >= -b / a` taken as the float comparison gives it when a is 0 (`AtLeastRatio`), and 0 for an unknown type; the definition is the whole statement, with `TypeZeroIsGamma` as its only partner |
| Curves.TypeZeroIsGamma | com/smartg/icc/ParametricCurve.java:87-88 | a parametric curve of function type 0 gives the same value as the gamma `Curve` of its parameter, `pow(x, g)` |
| Curves.ICurve.Get | com/smartg/icc/Curve.java:94-121 | `ICurve.get` dispatches to the table curve's or the parametric curve's own `get` |
| Curves.InverseTable | com/smartg/icc/Curve.java:132-143 | the table inverse has as many slots as the table has samples |
| Curves.FillIndexOrdered | com/smartg/icc/Curve.java:132-143 | `(int) (values[i] * (N - 1))` of two ordered samples in [0, 1] lies in 0..N-1 and keeps their order |
| Curves.FillIndexMonotone | com/smartg/icc/Curve.java:132-143 | for non-decreasing samples in [0, 1] the fill indexes lie in 0..N-1 and never decrease |
| Curves.NegativeSampleFaults | com/smartg/icc/Curve.java:132-143 | of [-2, 0.5] exactly the second row stores at a negative slot; no row of [-0.1, 0.5, 1] or of [0.5, -1] does |
| Curves.MonotoneNeverFaults | com/smartg/icc/Curve.java:132-143 | non-decreasing samples in [0, 1] never make the fill loop store at a negative slot |
| Curves.MonotoneSlot | com/smartg/icc/Curve.java:132-143 | after m rows, slot 0 is 0, and slot j >= 1 holds i/N for the first row i whose fill index reaches j, or 0 while no row has |
| Curves.MonotoneInverseTable | com/smartg/icc/Curve.java:132-143 | the inverse of a non-decreasing table in [0, 1]: slot 0 is 0, and slot j >= 1 is i/N for the first row i that reaches j, or 0 when no row does |
| Curves.FillRow | com/smartg/icc/Curve.java:136-142 | one row of the fill loop fails exactly when it stores at a negative slot, and otherwise leaves the slots as the specification of the first i + 1 rows says |
| Curves.InvertTable | com/smartg/icc/Curve.java:132-143 | the fill loop fails, with `IndexOutOfBounds`, exactly when some row stores at a negative slot; otherwise it gives `InverseTable` |
| Curves.Curve.constructor | com/smartg/icc/Curve.java:50-65 | the curve keeps its type and samples; gamma is the single sample of a one-entry table and 0 otherwise; there is no inverse yet |
| Curves.Curve.SetReserved | com/smartg/icc/tag/Tag.java:59-65 | `setReserved` sets the reserved field and leaves the memoised inverse alone |
| Curves.Curve.Inverse | com/smartg/icc/Curve.java:129-157 | memoised: an existing inverse is returned unchanged; otherwise the identity inverts to itself, a gamma to one entry holding 1/gamma, and a table to `InverseTable` by the fill loop; a failing fill loop throws and memoises nothing; the identity and a non-zero gamma always invert, to a `SimpleInverse` |
| Curves.SimpleInverseUndoes | com/smartg/icc/Curve.java:94-98 | the inverse the identity gets gives back every value, and the inverse a gamma gets gives back every value in [0, 1] when `pow(pow(x, g), 1/g) == x` there |
| Curves.ParametricCurve.constructor | com/smartg/icc/ParametricCurve.java:55-59 | the curve keeps its type, function type and parameters, with no inverse and zero reserved fields |
| Curves.ParametricCurve.SetReserved | com/smartg/icc/tag/Tag.java:59-65 | `setReserved` sets the reserved field only |
| Curves.ParametricCurve.SetReserved2 | com/smartg/icc/ParametricCurve.java:162-164 | `setReserved2` sets the second reserved field only |
| Curves.ParametricCurve.SampledInverse | com/smartg/icc/ParametricCurve.java:132-144 | the sampled inverse has 1024 slots |
| Curves.ParametricCurve.Inverse | com/smartg/icc/ParametricCurve.java:132-144 | memoised: an existing inverse is returned unchanged; otherwise it fails, memoising nothing, exactly when a sample's slot `(int) (get(i / 1024f) * 1024)` lies outside 0..1023, and succeeds with `SampledInverse` |
| Curves.ParametricCurve.SampleInverse | com/smartg/icc/ParametricCurve.java:134-140 | the sampling loop fails exactly when a slot lies outside 0..1023, and otherwise gives `SampledInverse` |
| Curves.SampleSlotIsRawIndex | com/smartg/icc/ParametricCurve.java:134-140 | every slot of the sampled inverse holds a whole number in 0..1023: the raw index of a sample that hit it, never i/1024 |
| Curves.SampleAtOneFaults | com/smartg/icc/ParametricCurve.java:136-139 | a sample at which the curve reaches 1 has a slot outside 0..1023, so the inverse throws |
| Curves.ICurve.Inverse | com/smartg/icc/Curve.java:129-157 | `ICurve.inverse()` is always a table curve, the memoised one; an existing inverse is returned unchanged, and a failure memoises nothing; a table curve that is the identity or a non-zero gamma always inverts, to a `SimpleInverse` |
| DateTimes.U16Bytes | com/smartg/icc/DateTimeNumber.java:71-80 | a 16-bit field encodes to two bytes |
| DateTimes.Encode | com/smartg/icc/DateTimeNumber.java:71-80 | a dateTimeNumber encodes to twelve bytes |
| DateTimes.U16RoundTrip | com/smartg/icc/DateTimeNumber.java:71-80 | two bytes read big-endian give back the 16-bit number they encode |
| DateTimes.DecodeInRange | com/smartg/icc/DateTimeNumber.java:71-80 | every field `read` decodes is an unsigned 16-bit number |
| DateTimes.DecodeEncode | com/smartg/icc/DateTimeNumber.java:71-80 | decoding the encoding gives back every field, with no range check on month, day or time |
| DateTimes.Decode | com/smartg/icc/DateTimeNumber.java:71-80 | year, month, day, hour, minute and second from six big-endian 16-bit numbers in that order; `DecodeAt`, `DecodeInRange` and `DecodeEncode` state it |
| DateTimes.Read | com/smartg/icc/DateTimeNumber.java:71-80 | `read(InputStream)` succeeds exactly when twelve bytes are left, and then decodes them and moves twelve bytes on |
| DateTimes.DecodeAt | com/smartg/icc/DateTimeNumber.java:71-80 | field k of the date comes from bytes 2k and 2k + 1, most significant first |
| Headers.Latin1 | com/smartg/icc/ICCProfile.java:203-208 | `new String(bytes)` in the ISO-8859-1 charset gives one character per byte, with the byte's code |
| Headers.Illuminant | com/smartg/icc/ICC_Header.java:88-92 | each illuminant component, times 65535, is the raw unsigned number |
| Headers.MiddleAt | com/smartg/icc/ICC_Header.java:80-92 | the manufacturer field has four bytes, and the rendering intent is `Unknown` exactly when the raw value lies outside 0..3 |
| Headers.FieldsAt | com/smartg/icc/ICC_Header.java:73-97 | the manufacturer, creator, ID and reserved fields have 4, 4, 16 and 28 bytes |
| Headers.MiddleAtIlluminant | com/smartg/icc/ICC_Header.java:88-92 | the illuminant has three components, each the raw unsigned number at its offset over 65535 |
| Headers.StartAtClass | com/smartg/icc/ICC_Header.java:77 | the profile class is null exactly when the class signature is none of the seven class values |
| Headers.IccHeader.constructor | com/smartg/icc/ICC_Header.java:73-97 | the header keeps the fields read, and no cached string is built yet |
| Headers.IccHeader.GetDeviceManufacturer | com/smartg/icc/ICCProfile.java:203-208 | the manufacturer bytes as a Latin-1 string, cached in the header; the other cached strings are unchanged |
| Headers.IccHeader.GetProfileCreator | com/smartg/icc/ICCProfile.java:226-231 | the creator bytes as a Latin-1 string, cached; the other cached strings are unchanged |
| Headers.IccHeader.GetProfileId | com/smartg/icc/ICCProfile.java:233-238 | the profile ID bytes as a Latin-1 string, cached; the other cached strings are unchanged |
| Headers.ReadHeaderStart | com/smartg/icc/ICC_Header.java:74-79 | succeeds exactly when 24 bytes are left and both colour spaces are known; an unknown data colour space throws `IllegalArgumentException` as soon as its 20 bytes are there, before the connection space is read, and so does an unknown connection space once all 24 are; the result is the three numbers, class and spaces at their offsets |
| Headers.ReadDateAndIds | com/smartg/icc/ICC_Header.java:80-83 | succeeds exactly when 24 bytes are left, and gives the date, signature, platform and flags at their offsets |
| Headers.ReadDevice | com/smartg/icc/ICC_Header.java:84-92 | succeeds exactly when 32 bytes are left, and gives manufacturer, model, attributes, rendering intent and illuminant at their offsets |
| Headers.ReadHeaderMiddle | com/smartg/icc/ICC_Header.java:80-92 | succeeds exactly when 56 bytes are left, and gives `MiddleAt` the start, 56 bytes further on |
| Headers.ReadHeaderEnd | com/smartg/icc/ICC_Header.java:94-96 | the last three fields are filled by `read(byte[])` as far as the data goes, zeros beyond it |
| Headers.ReadHeader | com/smartg/icc/ICC_Header.java:73-97 | succeeds exactly when 80 bytes are left and both colour spaces are known; an unknown data colour space throws `IllegalArgumentException` once its 20 bytes are there, and an unknown connection space once 24 are; the header holds `FieldsAt` the start, 128 bytes further on when they are all there |
| IccProfiles.CurveOf | com/smartg/icc/ICCProfile.java:95-98 | `(ICurve) tag`: fails with `ClassCastException` exactly for a tag that is not a curve, and is null exactly for an absent tag |
| IccProfiles.WireWith | com/smartg/icc/ICCProfile.java:95-119 | the constructor's casts in order: the red, green and blue curves, the grey curve under the key given, then the five XYZ vectors, the first exception ending the sequence |
| IccProfiles.WireAsWritten | com/smartg/icc/ICCProfile.java:95-119 | the constructor's wiring as written, the grey curve fetched under `BLUE_TRC_SIG`; `GrayTrcFromBlueSig` states what that loses |
| IccProfiles.Wire | com/smartg/icc/ICCProfile.java:95-119 | the wiring with the grey curve under `GRAY_TRC_SIG`, as evidently intended; `WireWithGray` relates it to the wiring as written |
| IccProfiles.XyzOf | com/smartg/icc/ICCProfile.java:100-119 | `((XYZ) tag).xyzNumbers[0]`: null for an absent tag, `ClassCastException` for another kind, `IndexOutOfBounds` for no numbers, else the first triple |
| IccProfiles.GrayTrcFromBlueSig | com/smartg/icc/ICCProfile.java:98 | for a grey profile with a curve under `grayTRC` and no `blueTRC`, the code as written ends up without a grey curve, while the grey signature gives that curve |
| IccProfiles.WireWithGray | com/smartg/icc/ICCProfile.java:95-98 | with either key the grey curve is the cast of the tag under that key, and the other eight values do not depend on the key |
| IccProfiles.CurveFromSettled | com/smartg/icc/ICCProfile.java:95-98 | a curve taken from a freshly decoded table can be evaluated and has no inverse yet |
| IccProfiles.XyzFromSettled | com/smartg/icc/ICCProfile.java:100-119 | a vector taken from a freshly decoded table is a triple |
| IccProfiles.DescriptionOf | com/smartg/icc/ICCProfile.java:254-271 | "" for no tag; for a textDescription, its text without the last byte, failing for an empty text; for a multiLocalizedUnicode, its first name, failing with none; null for any other kind |
| IccProfiles.KindOfSpaces | com/smartg/icc/ICCProfile.java:240-250 | the matrix/TRC transform exactly for RGB data with an XYZ or Lab connection space, the grey one exactly for grey data |
| IccProfiles.KindOf | com/smartg/icc/ICCProfile.java:240-250 | the selection of `getColorTransformer`: CT3 for RGB data with an XYZ or Lab connection space, else CT1 for grey data, else none; `KindOfSpaces` states it for the colour space constants |
| IccProfiles.MatrixOf | com/smartg/icc/ICCProfile.java:126-141 | a 3x3 matrix whose entry [i][0] is red[i], [i][1] green[i] and [i][2] blue[i] |
| IccProfiles.ToArray | com/smartg/icc/ICCProfile.java:100-119 | a fresh array holding the vector, or null for none |
| IccProfiles.Copy | com/smartg/icc/ICCProfile.java:159-165 | `clone()`: null throws `NullPointerException`, otherwise a fresh array with the same contents |
| IccProfiles.IccProfile.constructor | com/smartg/icc/ICCProfile.java:79-120 | the profile holds the header, the table and the wired curves and vectors, each vector in a fresh array, with no description yet |
| IccProfiles.IccProfile.GetTag | com/smartg/icc/ICCProfile.java:122-124 | the tag of the last directory entry of that type, or null |
| IccProfiles.IccProfile.GetNumComponents | com/smartg/icc/ICCProfile.java:143-145 | the channel count of the data colour space, between 1 and 15 |
| IccProfiles.IccProfile.GetMatrix | com/smartg/icc/ICCProfile.java:126-141 | throws `NullPointerException` exactly when a column is missing; otherwise a fresh 3x3 array equal to `MatrixOf` the columns |
| IccProfiles.IccProfile.GetRedColumn | com/smartg/icc/ICCProfile.java:147-149 | the profile's own red column array, not a copy |
| IccProfiles.IccProfile.GetGreenColumn | com/smartg/icc/ICCProfile.java:151-153 | the profile's own green column array, not a copy |
| IccProfiles.IccProfile.GetBlueColumn | com/smartg/icc/ICCProfile.java:155-157 | the profile's own blue column array, not a copy |
| IccProfiles.IccProfile.GetWhitePoint | com/smartg/icc/ICCProfile.java:159-161 | a fresh copy of the white point; a missing one throws `NullPointerException` |
| IccProfiles.IccProfile.GetBlackPoint | com/smartg/icc/ICCProfile.java:163-165 | a fresh copy of the black point; a missing one throws `NullPointerException` |
| IccProfiles.IccProfile.GetPcsIlluminant | com/smartg/icc/ICCProfile.java:222-224 | a fresh array holding the header's illuminant |
| IccProfiles.IccProfile.GetProfileDescription | com/smartg/icc/ICCProfile.java:254-271 | the result is `DescriptionOf` the description tag; it is cached when it succeeds, and a failure leaves the cache as it was |
| IccProfiles.IccProfile.GetColorTransformer | com/smartg/icc/ICCProfile.java:240-250 | `CT3` over the columns and colour curves, `CT1` over the grey curve, or null, by `KindOf` the two spaces; the profile stays valid |
| IccProfiles.IccProfile.BuildMatrixTrc | com/smartg/icc/ICCProfile.java:243-245 | a missing column throws `NullPointerException`; otherwise a `CT3` over the profile's columns and curves |
| IccProfiles.IccProfile.BuildMonochrome | com/smartg/icc/ICCProfile.java:246-248 | a missing grey curve throws `NullPointerException`; otherwise a `CT1` over the profile's grey curve |
| IccProfiles.ReadHeaderAndTable | com/smartg/icc/ICCProfile.java:82-84 | succeeds only for at least 132 bytes and known colour spaces, and gives a header and a directory read from the start of the bytes; an unknown data colour space in 20 or more bytes throws `IllegalArgumentException` |
| IccProfiles.ReadTableAfterHeader | com/smartg/icc/ICCProfile.java:84 | the tag table read from offset 128 is the directory there |
| IccProfiles.ReadHeaderAtStart | com/smartg/icc/ICCProfile.java:82-83 | succeeds exactly for at least 80 bytes and known colour spaces, and leaves the stream at 128; an unknown data colour space in 20 or more bytes throws `IllegalArgumentException` |
| IccProfiles.ReadProfile | com/smartg/icc/ICCProfile.java:79-120 | the whole constructor: at least 132 bytes and known colour spaces are needed, and an unknown data colour space in 20 or more bytes throws `IllegalArgumentException`; the profile is valid and `LoadedFrom` the bytes, with header, directory, decoded tags and the wiring as written, which takes the grey curve under the blueTRC signature |
| IccProfiles.WireProfile | com/smartg/icc/ICCProfile.java:88-119 | after `readTags`, the profile's curves and vectors are the ones the wiring as written takes from the table, the grey curve under the blueTRC signature |
| IccProfiles.Assemble | com/smartg/icc/ICCProfile.java:100-119 | the profile over a wiring is valid, with no description yet |
| IccProfiles.DecodeTags | com/smartg/icc/ICCProfile.java:86 | `readTags` on a fresh table leaves every entry decoded from its window: the reader of its payload type, if any, made the tag from the bytes after the type signature, with the entry's size as the length |
| IccProfiles.DecodeTable | com/smartg/icc/ICCProfile.java:86 | `readTags` on the directory just read leaves every entry decoded from its window, the tag's fields being the ones its reader reads there |
| IccProfiles.DecodedShaped | com/smartg/icc/TagTable.java:92-111 | a tag that decoding put into an empty entry is well shaped |
| IccProfiles.WireSettled | com/smartg/icc/ICCProfile.java:88-119 | the wiring as written of a freshly decoded table gives triples and curves ready to be inverted, the grey curve being the blueTRC one |
| JavaNum.U32 | com/smartg/icc/SignatureUtils.java:35-39 | `v & 0xFFFFFFFFL` lies in 0..2^32-1 and differs from v by a multiple of 2^32 |
| JavaNum.S32 | com/smartg/icc/SignatureUtils.java:41-45 | the `(int)` cast differs from v by a multiple of 2^32 and keeps every int |
| JavaNum.S64 | com/smartg/icc/tag/TagReader.java:716-725 | a long differs from v by a multiple of 2^64 and keeps every long |
| JavaNum.BE | com/smartg/icc/SignatureUtils.java:47-52 | n bytes read big-endian give a number below 256^n |
| JavaNum.BEAppend | com/smartg/icc/tag/TagReader.java:426-438 | shifting in one more byte multiplies by 256 and adds the byte |
| JavaNum.FloatToInt | com/smartg/icc/Curve.java:136 | `(int) x` truncates toward zero and saturates at the int range |
| JavaNum.JavaDiv | com/smartg/icc/tag/TagReader.java:591-600 | Java's `a / b` for b > 0 truncates toward zero, for negative a too |
| JavaNum.FloatToIntMonotone | com/smartg/icc/Curve.java:136 | the float-to-int cast never decreases |
| JavaNum.CastOrdered | com/smartg/icc/Curve.java:136 | casting two ordered values in [0, m] gives ordered whole numbers in 0..m |
| JavaNum.ScaleToIntRange | com/smartg/icc/Curve.java:136 | a fraction in [0, 1] scaled by m and cast lies in 0..m |
| JavaNum.ScaleToIntMonotone | com/smartg/icc/Curve.java:136 | scaling by m and casting keeps the order of non-negative values |
| JavaNum.ScaledIndexOrdered | com/smartg/icc/Curve.java:136 | scaling two ordered fractions in [0, 1] by m and casting keeps them ordered within 0..m |
| JavaNum.ScaleAtLeastOne | com/smartg/icc/ParametricCurve.java:138 | a value of at least 1 scaled by m and cast is at least m |
| LutReaders.ReadByteAt | com/smartg/icc/tag/TagReader.java:278 | `read()` gives the byte at the position, or -1 past the end |
| LutReaders.Unit8sAt | com/smartg/icc/tag/TagReader.java:276-288 | n samples of `read() / 255f` |
| LutReaders.Unit16sAt | com/smartg/icc/tag/TagReader.java:266-275 | n samples of `readShortBE() / 65535f` |
| LutReaders.Clut16sAt | com/smartg/icc/tag/TagReader.java:294-304 | n cells of a 16-bit CLUT |
| LutReaders.Clut16CellBelowOne | com/smartg/icc/tag/TagReader.java:299 | every 16-bit CLUT cell lies strictly between -0.6 and 0.6, because of the second division by 65535 |
| LutReaders.ReadUnit8s | com/smartg/icc/tag/TagReader.java:276-288 | n calls of `read() / 255f` give `Unit8sAt`, -1/255 past the end |
| LutReaders.ReadUnit16s | com/smartg/icc/tag/TagReader.java:266-275 | succeeds exactly when 2n bytes are left, and gives `Unit16sAt` |
| LutReaders.ReadClut16Row | com/smartg/icc/tag/TagReader.java:298-301 | succeeds exactly when 4n bytes are left, and gives `Clut16sAt` |
| LutReaders.ReadClut16Rows | com/smartg/icc/tag/TagReader.java:297-302 | m grid points of n cells: succeeds exactly when 4mn bytes are left, and row k is `Clut16sAt` at stride 4n |
| LutReaders.ReadClut16 | com/smartg/icc/tag/TagReader.java:294-304 | `readClut16` fills every grid point with its cells from the bytes, and returns the cell count, `table.length * outputCount` |
| LutReaders.ReadClut8Rows | com/smartg/icc/tag/TagReader.java:309-314 | m grid points of n cells, row k being `Unit8sAt` at stride n |
| LutReaders.ReadClut8 | com/smartg/icc/tag/TagReader.java:306-317 | `readClut8` fills every grid point, -1/255 past the end, and returns the cell count |
| LutReaders.ClutValuesLength | com/smartg/icc/tag/TagReader.java:258 | the `clutValues` length is never negative |
| LutReaders.ProductOfCopies | com/smartg/icc/tag/TagReader.java:260-264 | the product of i copies of G is G^i |
| LutReaders.LutGridSizeIsPower | com/smartg/icc/tag/TagReader.java:260-264 | the CLUT of a lut has G^I grid points when G^I fits in an `int` |
| LutReaders.ClutValuesMatchGrid | com/smartg/icc/tag/TagReader.java:257-264 | when G^I * O fits in an `int`, `clutValues` is exactly as long as the CLUT has cells |
| LutReaders.ReadLutHeader | com/smartg/icc/tag/TagReader.java:231-249 | the header is read exactly when all 48 bytes are there, and is `LutHeaderAt` the start |
| LutReaders.ReadLut16Tables | com/smartg/icc/tag/TagReader.java:266-275 | the lut16 input tables, CLUT and output tables, read from consecutive bytes, exactly when they fit |
| LutReaders.ReadLut8Tables | com/smartg/icc/tag/TagReader.java:276-288 | the lut8 input tables, CLUT and output tables, -1/255 past the end |
| LutReaders.ReadLutTables | com/smartg/icc/tag/TagReader.java:266-289 | the lut16 or lut8 tables by the tag's own type, and nothing for any other type |
| LutReaders.ReadLutStart | com/smartg/icc/tag/TagReader.java:231-264 | the header, then a CLUT of I inputs with G grid points each, failing as the array sizes and CLUT allocation fail |
| LutReaders.ReadLut | com/smartg/icc/tag/TagReader.java:230-291 | `LutReader.read`: succeeds exactly when the lut is readable, and the tag's fields, CLUT and tables are the ones at their offsets |
| ProfileClasses.ConstructorCheck | com/smartg/icc/ProfileClass.java:62-71 | each class's value encodes its signature, so the constructor's check never throws |
| ProfileClasses.MapOfPrefix | com/smartg/icc/ProfileClass.java:45-51 | each `put` adds the class under its signature |
| ProfileClasses.SignatureMapContents | com/smartg/icc/ProfileClass.java:35-51 | the static map holds the seven signatures and their classes |
| ProfileClasses.SignatureMapSize | com/smartg/icc/ProfileClass.java:35-51 | the seven signatures are distinct |
| ProfileClasses.SignatureMapEntries | com/smartg/icc/ProfileClass.java:45-51 | each class is stored under its own signature, and each key holds the class with that signature |
| ProfileClasses.BuildMap | com/smartg/icc/ProfileClass.java:45-51 | the static initialiser builds exactly that map |
| ProfileClasses.Get | com/smartg/icc/ProfileClass.java:53-56 | a class found has the signature string of the value |
| ProfileClasses.GetValue | com/smartg/icc/ProfileClass.java:53-56 | every class is found from its own value |
| ProfileClasses.GetIffValue | com/smartg/icc/ProfileClass.java:53-56 | `get` finds a class exactly when the low 32 bits of the value are that class's value |
| ProfileColorSpaces.ValueOf | com/smartg/icc/ProfileColorSpaceType.java:87-90 | `valueOf` gives a constant of that name, or throws `IllegalArgumentException` |
| ProfileColorSpaces.CandidateOfName | com/smartg/icc/ProfileColorSpaceType.java:87-90 | the name lookup finds each constant under its own name |
| ProfileColorSpaces.ValueOfName | com/smartg/icc/ProfileColorSpaceType.java:87-90 | `valueOf(name(c)) == c` for every constant |
| ProfileColorSpaces.ValueOfUnknown | com/smartg/icc/ProfileColorSpaceType.java:87-90 | `valueOf` throws exactly for the names no constant has |
| ProfileColorSpaces.TrimStart | com/smartg/icc/ProfileColorSpaceType.java:87-90 | `trim` drops exactly the leading characters up to ' ' |
| ProfileColorSpaces.TrimEnd | com/smartg/icc/ProfileColorSpaceType.java:87-90 | `trim` drops exactly the trailing characters up to ' ' |
| ProfileColorSpaces.UpperChar | com/smartg/icc/ProfileColorSpaceType.java:87-90 | 'a'..'z' become 'A'..'Z', and every other character is kept |
| ProfileColorSpaces.UpperAscii | com/smartg/icc/ProfileColorSpaceType.java:87-90 | `toUpperCase` maps each character by `UpperChar` |
| ProfileColorSpaces.Get | com/smartg/icc/ProfileColorSpaceType.java:87-90 | `get` gives the constant named "CS_" + the trimmed, upper-cased signature string, or throws `IllegalArgumentException` |
| ProfileColorSpaces.ConstructorCheck | com/smartg/icc/ProfileColorSpaceType.java:77-79 | each constant's value encodes its signature, so the constructor's check never throws |
| ProfileColorSpaces.GetThree | com/smartg/icc/ProfileColorSpaceType.java:87-90 | a signature of three visible characters and a space looks up "CS_" and their upper-case forms |
| ProfileColorSpaces.GetFour | com/smartg/icc/ProfileColorSpaceType.java:87-90 | a signature of four visible characters looks up "CS_" and their upper-case forms |
| ProfileColorSpaces.GetConstThree | com/smartg/icc/ProfileColorSpaceType.java:87-90 | a constant with such a three-character signature and the matching name is found from its value |
| ProfileColorSpaces.GetConstFour | com/smartg/icc/ProfileColorSpaceType.java:87-90 | the same for a four-character signature |
| ProfileColorSpaces.GetValue | com/smartg/icc/ProfileColorSpaceType.java:36-90 | `get(value(c)) == c` for every constant but `CS_YCC`, for which `get` throws |
| ProfileColorSpaces.GetValueTristimulus | com/smartg/icc/ProfileColorSpaceType.java:36-90 | `GetValue` for XYZ, Lab, Luv, YCC, Yxy and RGB |
| ProfileColorSpaces.GetYcc | com/smartg/icc/ProfileColorSpaceType.java:39 | "YCbr" upper-cases to "CS_YCBR", so `get` on the value of `CS_YCC` throws |
| ProfileColorSpaces.CorrectedGetValue | com/smartg/icc/ProfileColorSpaceType.java:87-90 | the corrected lookup `CorrectedGet` gives every constant back from its value, `CS_YCC` included, and agrees with `get` on every other constant's value |
| ProfileColorSpaces.GetValueNamed | com/smartg/icc/ProfileColorSpaceType.java:36-90 | `GetValue` for grey, HSV, HLS, CMYK and CMY |
| ProfileColorSpaces.GetValueLowColours | com/smartg/icc/ProfileColorSpaceType.java:36-90 | `GetValue` for the two- to eight-colour spaces |
| ProfileColorSpaces.GetValueHighColours | com/smartg/icc/ProfileColorSpaceType.java:36-90 | `GetValue` for the nine- to fifteen-colour spaces |
| ProfileColorSpaces.UpperTrimStart | com/smartg/icc/ProfileColorSpaceType.java:87-90 | upper-casing commutes with trimming the front |
| ProfileColorSpaces.UpperTrimEnd | com/smartg/icc/ProfileColorSpaceType.java:87-90 | upper-casing commutes with trimming the end |
| ProfileColorSpaces.GetIgnoresCase | com/smartg/icc/ProfileColorSpaceType.java:87-90 | two signatures that upper-case alike give the same result |
| ProfileColorSpaces.TrimPadding | com/smartg/icc/ProfileColorSpaceType.java:87-90 | a leading and a trailing space trim to the same three characters |
| ProfileColorSpaces.GetIgnoresPadding | com/smartg/icc/ProfileColorSpaceType.java:87-90 | " RGB" and "RGB " give the same result |
| RenderingIntents.GetRenderingIntentType | com/smartg/icc/RenderingIntent.java:49-59 | the intent with that value for 0..3, and `Unknown` exactly for the other values |
| RenderingIntents.ValuesDistinct | com/smartg/icc/RenderingIntent.java:33-34 | distinct intents have distinct values |
| RenderingIntents.GetValue | com/smartg/icc/RenderingIntent.java:49-59 | looking up an intent's own value gives it back |
| SignatureUtils.ByteToInt | com/smartg/icc/SignatureUtils.java:47-52 | succeeds exactly when four bytes are there from the offset, and their big-endian value is the int's low 32 bits |
| SignatureUtils.IntToByte | com/smartg/icc/SignatureUtils.java:54-61 | writes the four bytes of v, most significant first, and returns 4; a shorter dest receives those that fit, then the store fails; the rest of dest is unchanged |
| SignatureUtils.SignatureString | com/smartg/icc/SignatureUtils.java:41-45 | the signature string has four characters |
| SignatureUtils.ToString | com/smartg/icc/SignatureUtils.java:41-45 | `toString(long)` is `SignatureString` of its argument |
| SignatureUtils.ToLong | com/smartg/icc/SignatureUtils.java:35-39 | fails for fewer than four characters; otherwise the first four bytes, big-endian, an unsigned 32-bit number |
| SignatureUtils.LowBitsOnly | com/smartg/icc/SignatureUtils.java:41-45 | two values with the same low 32 bits have the same four bytes |
| SignatureUtils.SignatureOf | com/smartg/icc/SignatureUtils.java:41-45 | the signature string of a value built from four characters is those characters |
| SignatureUtils.BytesOfRoundTrip | com/smartg/icc/SignatureUtils.java:47-61 | the four bytes of v, assembled big-endian, give back the low 32 bits of v |
| SignatureUtils.BytesOfU32 | com/smartg/icc/SignatureUtils.java:47-61 | the four bytes of an unsigned 32-bit number give back the number |
| SignatureUtils.IntToByteRoundTrip | com/smartg/icc/SignatureUtils.java:47-61 | `byteToInt(intToByte(v)) == v` for every int |
| SignatureUtils.ToStringLow32 | com/smartg/icc/SignatureUtils.java:41-45 | `toString` looks only at the low 32 bits |
| SignatureUtils.ToStringToLong | com/smartg/icc/SignatureUtils.java:35-45 | `toLong(toString(v)) == v & 0xFFFFFFFF` |
| SignatureUtils.ToLongFirstFour | com/smartg/icc/SignatureUtils.java:35-39 | `toLong` reads only the first four characters |
| SignatureUtils.ToLongToString | com/smartg/icc/SignatureUtils.java:35-45 | `toString(toLong(s)) == s` for four one-byte characters |
| Streams.U16sAt | com/smartg/icc/tag/TagReader.java:678-687 | n unsigned 16-bit numbers |
| Streams.U32sAt | com/smartg/icc/tag/TagReader.java:697-706 | n unsigned 32-bit numbers |
| Streams.S64sAt | com/smartg/icc/tag/TagReader.java:716-725 | n signed 64-bit numbers |
| Streams.Filled | com/smartg/icc/ICC_Header.java:94-96 | `read(byte[])` into n bytes: byte i is the data byte when there is one, else 0 |
| Streams.BytesOrEnd | com/smartg/icc/tag/TagReader.java:735-744 | n calls of `read()` give values in -1..255 |
| Streams.ByteStream.constructor | com/smartg/icc/ICCProfile.java:82 | a stream over the bytes at the offset |
| Streams.ByteStream.Read | com/smartg/icc/tag/TagReader.java:131 | `read()`: the next byte, and one step on; -1 and no movement at the end; a negative position throws |
| Streams.ByteStream.ReadBytes | com/smartg/icc/tag/TagReader.java:204 | `readFully`: the next n bytes exactly when they are there, else `EOFException`; nothing read for n = 0 |
| Streams.ByteStream.ReadAvailable | com/smartg/icc/ICC_Header.java:94-96 | `read(byte[])`: the bytes that are left, up to n, then zeros |
| Streams.ByteStream.ReadU16BE | com/smartg/icc/DateTimeNumber.java:72-77 | `readShortBE`: two bytes, most significant first, exactly when they are there |
| Streams.ByteStream.ReadU16LE | com/smartg/icc/tag/TagReader.java:105-106 | `readShortLE`: two bytes, least significant first |
| Streams.ByteStream.ReadS32BE | com/smartg/icc/ICC_Header.java:83 | `readIntBE`: four bytes as a signed int |
| Streams.ByteStream.ReadU32BE | com/smartg/icc/ICC_Header.java:74-76 | `readUnsignedIntBE`: four bytes as an unsigned number |
| Streams.ByteStream.ReadS64BE | com/smartg/icc/ICC_Header.java:86 | `readLongBE`: eight bytes as a signed long |
| Streams.ByteStream.ReadBytesOrEnd | com/smartg/icc/tag/TagReader.java:125-134 | n calls of `read()` give `BytesOrEnd` |
| Streams.ByteStream.ReadU16s | com/smartg/icc/tag/TagReader.java:678-687 | n calls of `readShortBE`, exactly when 2n bytes are left |
| Streams.ByteStream.ReadU32s | com/smartg/icc/tag/TagReader.java:697-706 | n calls of `readUnsignedIntBE`, exactly when 4n bytes are left |
| Streams.ByteStream.ReadS64s | com/smartg/icc/tag/TagReader.java:716-725 | n calls of `readLongBE`, exactly when 8n bytes are left |
| TagDispatch.NonZeroFrom | com/smartg/icc/tag/TagReader.java:426-438 | the first position from x on that holds no zero byte: every byte skipped is 0 |
| TagDispatch.SkipZeros | com/smartg/icc/tag/TagReader.java:426-438 | the loop of `findTag` returns the first non-zero byte, or -1 at the end |
| TagDispatch.ShiftStep | com/smartg/icc/tag/TagReader.java:426-438 | one `(tag << 8) \| k` step assembles one more byte big-endian, or gives -1 |
| TagDispatch.ShiftInBytes | com/smartg/icc/tag/TagReader.java:426-438 | the three shifts give the big-endian signature at the first non-zero byte, or -1 |
| TagDispatch.FindTag | com/smartg/icc/tag/TagReader.java:426-438 | `findTag` skips zero bytes and gives the four-byte big-endian signature there, or -1 once the data ends |
| TagDispatch.FindTagSkipsPadding | com/smartg/icc/tag/TagReader.java:426-438 | a signature after any run of zero padding is found whole |
| TagDispatch.ReadMatrix | com/smartg/icc/tag/TagReader.java:391-396 | `readMatrix` succeeds exactly when 48 bytes are there from the offset, and gives twelve fixed-point numbers |
| TagDispatch.GridPointsAt | com/smartg/icc/tag/TagReader.java:369-373 | fifteen grid point counts |
| TagDispatch.ReadClutCells | com/smartg/icc/tag/TagReader.java:380-387 | precision 1 fills the CLUT with 8-bit cells, precision 2 with 16-bit cells (failing exactly when they do not fit); any other precision succeeds and leaves the CLUT as it was |
| TagDispatch.ReadClutHead | com/smartg/icc/tag/TagReader.java:369-378 | the fifteen grid point counts and the precision, 19 bytes |
| TagDispatch.ReadClutInfo | com/smartg/icc/tag/TagReader.java:368-389 | a negative offset throws; the CLUT fails as its allocation does; otherwise a CLUT of the tag's counts, filled by the precision; with a precision other than 2 it succeeds exactly when the allocation does, and with one other than 1 and 2 every cell stays 0 |
| TagDispatch.LutAtoBHeaderAt | com/smartg/icc/tag/TagReader.java:326-335 | the header has five offsets |
| TagDispatch.ReadLutAtoBHeader | com/smartg/icc/tag/TagReader.java:326-335 | the 28-byte header is read exactly when it is all there |
| TagDispatch.ReadCurves | com/smartg/icc/tag/TagReader.java:399-424 | a negative count throws `NegativeArraySize`; otherwise `count` slots of fresh, valid curves, a negative offset throwing |
| TagDispatch.ReadFixedLayoutTag | com/smartg/icc/TagTable.java:100-103 | a fixed-layout reader makes a tag of its kind and type whose fields are the ones its layout puts at the position (`FixedLayoutAt`) |
| TagDispatch.ReadNamedRecordsTag | com/smartg/icc/TagTable.java:100-103 | a named-records reader makes a tag of its kind and type holding the count and every record read at its place (`NamedRecordsAt`) |
| TagDispatch.ReadLengthSizedTag | com/smartg/icc/TagTable.java:100-103 | a length-sized reader makes a tag of its kind and type whose array has the size the tag length gives and holds the values read (`LengthSizedAt`) |
| TagDispatch.ReadTag | com/smartg/icc/TagTable.java:100-103 | `reader.read`: a tag of the reader's kind, of the reader's type (lutAToB for the lutAtoB reader), well shaped, a fresh curve without an inverse, with the fields that reader reads at the position (`ReadAt`) |
| TagDispatch.ReadCurveOrLutTag | com/smartg/icc/TagTable.java:100-103 | the curve and lut readers make tags of their kind and type, a curve fresh and without an inverse, holding the samples, parameters, lut header fields or lutAtoBType header fields and matrix read at the position (`CurveOrLutAt`) |
| TagDispatch.ReadLutAtoB | com/smartg/icc/tag/TagReader.java:325-366 | the header, then `length - 32` bytes of data, negative throwing `NegativeArraySize`; the fields come from the header, the matrix from the data, and a CLUT present is `ClutAt` the data at its offset less 32: the tag's channel counts, the fifteen grid point counts there, and the cells by precision |
| TagDispatch.ReadLutAtoBSections | com/smartg/icc/tag/TagReader.java:340-363 | the sections read from the data: fields from the header, the matrix from its offset, a CLUT present as `ClutAt` its offset less 32 (counts, grid points, cells by precision) |
| TagDispatch.ReadCurveSection | com/smartg/icc/tag/TagReader.java:340-353 | a curve set is there exactly when its offset is positive, with one curve per channel |
| TagDispatch.ReadMatrixSection | com/smartg/icc/tag/TagReader.java:355-358 | twelve zeros when the offset is not positive, else `readMatrix` at the offset less 32 |
| TagDispatch.ReadClutSection | com/smartg/icc/tag/TagReader.java:360-363 | a CLUT is there exactly when its offset is positive, read by `readClutInfo` at the offset less 32: `ClutAt` gives its counts, grid points and its cells by precision |
| TagReaders.FixedsAt | com/smartg/icc/tag/TagReader.java:72-84 | n fixed-point numbers |
| TagReaders.FixedDivisor | com/smartg/icc/tag/TagReader.java:72-84 | a fixed-point value times 65535 is the raw number; only raw 0 agrees with raw/65536, and 0x00010000 decodes above 1 |
| TagReaders.ReadFixed | com/smartg/icc/tag/TagReader.java:72-84 | four bytes as a signed int over 65535, exactly when they are there |
| TagReaders.ReadFixeds | com/smartg/icc/tag/TagReader.java:72-79 | n fixed-point numbers, exactly when 4n bytes are left |
| TagReaders.ReadSignature | com/smartg/icc/tag/TagReader.java:629-634 | succeeds exactly when 8 bytes are left: the reserved field and the signature |
| TagReaders.ReadDateTime | com/smartg/icc/tag/TagReader.java:216-221 | succeeds exactly when 16 bytes are left: the reserved field and the date |
| TagReaders.ReadMeasurement | com/smartg/icc/tag/TagReader.java:489-502 | succeeds exactly when 32 bytes are left, each field at its offset |
| TagReaders.ReadViewingConditions | com/smartg/icc/tag/TagReader.java:754-769 | succeeds exactly when 32 bytes are left, each field at its offset |
| TagReaders.ReadFixedArray | com/smartg/icc/tag/TagReader.java:591-619 | (length - 8) / 4 fixed-point numbers; a negative count throws `NegativeArraySize` |
| TagReaders.ReadUInt16Array | com/smartg/icc/tag/TagReader.java:678-687 | (length - 8) / 2 unsigned 16-bit numbers; a negative count throws |
| TagReaders.ReadUInt32Array | com/smartg/icc/tag/TagReader.java:697-706 | (length - 8) / 4 unsigned 32-bit numbers; a negative count throws |
| TagReaders.ReadUInt64Array | com/smartg/icc/tag/TagReader.java:716-725 | (length - 8) / 8 signed longs; a negative count throws |
| TagReaders.ReadUInt8Array | com/smartg/icc/tag/TagReader.java:735-744 | length - 8 calls of `read()`; a negative count throws |
| TagReaders.ReadXYZ | com/smartg/icc/tag/TagReader.java:779-790 | (length - 8) / 12 triples of fixed-point numbers; a negative count throws |
| TagReaders.ReadText | com/smartg/icc/tag/TagReader.java:644-650 | the remaining length - 8 bytes; negative throws |
| TagReaders.ReadData | com/smartg/icc/tag/TagReader.java:199-206 | the data flag, then length - 12 bytes; negative throws |
| TagReaders.ReadDesc | com/smartg/icc/tag/TagReader.java:660-667 | an unsigned size, then that many bytes, the size cast to int; negative throws |
| TagReaders.XyAt | com/smartg/icc/tag/TagReader.java:101-115 | n xy entries |
| TagReaders.ReadXyEntry | com/smartg/icc/tag/TagReader.java:101-115 | `readShortBE() + readShortBE() / 65534`, exactly when four bytes are left |
| TagReaders.ReadXy | com/smartg/icc/tag/TagReader.java:101-115 | n xy entries, exactly when 4n bytes are left |
| TagReaders.ReadChromaticity | com/smartg/icc/tag/TagReader.java:101-115 | the little-endian channel count and type, then two xy entries per channel, exactly when they fit |
| TagReaders.ReadColorantOrder | com/smartg/icc/tag/TagReader.java:125-134 | a signed count, negative throwing, then one `read()` per colorant |
| TagReaders.ReadColorant | com/smartg/icc/tag/TagReader.java:144-161 | a 32-byte name and three 16-bit PCS values, exactly when 38 bytes are left |
| TagReaders.ReadColorants | com/smartg/icc/tag/TagReader.java:144-161 | n colorants at a stride of 38 bytes, exactly when they fit |
| TagReaders.ReadColorantTable | com/smartg/icc/tag/TagReader.java:144-161 | a signed count, negative throwing, then the colorants |
| TagReaders.CurveSamplesAt | com/smartg/icc/tag/TagReader.java:171-189 | as many samples as the entry count |
| TagReaders.CurveSamplesInUnit | com/smartg/icc/tag/TagReader.java:171-189 | a table of more than one sample lies in [0, 1] |
| TagReaders.CurveGammaIsU8Fixed8 | com/smartg/icc/tag/TagReader.java:171-189 | a single entry that is all there is the u8Fixed8Number of section 4.9 of ICC.1:2010 |
| TagReaders.ReadCurve | com/smartg/icc/tag/TagReader.java:171-189 | a signed count, negative throwing, then the samples, in a new curve with its reserved field set |
| TagReaders.ReadParametricCurve | com/smartg/icc/tag/TagReader.java:447-479 | the function type, the second reserved field and as many parameters as the type takes, exactly when they fit |
| TagReaders.NamesAt | com/smartg/icc/tag/TagReader.java:530-541 | one name per length |
| TagReaders.NamesBackToBack | com/smartg/icc/tag/TagReader.java:530-541 | name i starts where the lengths before it end, whatever the record offsets say |
| TagReaders.ReadNames | com/smartg/icc/tag/TagReader.java:530-541 | the name loop gives `NamesAt` |
| TagReaders.ReadNameRecord | com/smartg/icc/tag/TagReader.java:524-529 | language, country, length and offset, exactly when 12 bytes are left |
| TagReaders.NameLengthsAt | com/smartg/icc/tag/TagReader.java:524-529 | n name lengths |
| TagReaders.ReadNameRecords | com/smartg/icc/tag/TagReader.java:524-529 | n records at a stride of 12, exactly when they fit |
| TagReaders.NameEntriesAt | com/smartg/icc/tag/TagReader.java:524-541 | n records as four columns, each field at its offset, and n names |
| TagReaders.ReadNameEntries | com/smartg/icc/tag/TagReader.java:524-541 | both loops, exactly when records and names fit, giving `NameEntriesAt` |
| TagReaders.ReadMultiLocalizedUnicode | com/smartg/icc/tag/TagReader.java:512-544 | a signed count, negative throwing, the record size, the records and the names |
| TagReaders.ReadNamedColor | com/smartg/icc/tag/TagReader.java:569-579 | a 32-byte name, three PCS and n device coordinates, exactly when they fit |
| TagReaders.ReadNamedColors | com/smartg/icc/tag/TagReader.java:569-579 | `count` colours at their stride, exactly when they fit |
| TagReaders.ReadNamedColor2 | com/smartg/icc/tag/TagReader.java:554-581 | the header fields, negative counts throwing, then each colour at its offset |
| TagTables.DirectoryAt | com/smartg/icc/TagTable.java:50-61 | n entries |
| TagTables.DirectoryAtSnoc | com/smartg/icc/TagTable.java:53-60 | one more pass adds the entry at its offset |
| TagTables.DirectoryUndecoded | com/smartg/icc/TagTable.java:50-61 | a fresh directory holds no tags, and its offsets and sizes are unsigned |
| TagTables.Types | com/smartg/icc/TagTable.java:50-61 | the map key of each entry, in order |
| TagTables.IndexMapLast | com/smartg/icc/TagTable.java:59 | a key is in the map exactly when an entry has it, and it refers to the last such entry |
| TagTables.TagOf | com/smartg/icc/TagTable.java:84-90 | null when no entry has the type; otherwise the tag of the last entry of that type |
| TagTables.Window | com/smartg/icc/TagTable.java:96 | `createInputStream(offset, size)` delivers at most size bytes, exactly `d[offset..offset + size]` when they are there |
| TagTables.DecodeEntry | com/smartg/icc/TagTable.java:95-109 | one step of `readTags`: the entry is decoded from its window, the reader of its payload type reading after the 4-byte type signature with the entry's size as the length, and a new tag is fresh |
| TagTables.TagTable.constructor | com/smartg/icc/TagTable.java:50-61 | the table keeps its count, entries and map |
| TagTables.TagTable.GetTag | com/smartg/icc/TagTable.java:84-90 | `getTag` is `TagOf` the entries |
| TagTables.TagTable.ReadTags | com/smartg/icc/TagTable.java:92-111 | each entry is visited once; only its tag changes, and each entry is decoded from its window, with the fields its reader reads there |
| TagTables.ReadEntry | com/smartg/icc/TagTable.java:54-58 | signature, offset and size, exactly when 12 bytes are left |
| TagTables.ReadTable | com/smartg/icc/TagTable.java:50-61 | a signed count, negative throwing `NegativeArraySize`, then the directory |
| TagTypes.ValueAt | com/smartg/icc/tag/TagType.java:56-87 | every value is an unsigned 32-bit number |
| TagTypes.Value | com/smartg/icc/tag/TagType.java:56-87 | every value is an unsigned 32-bit number |
| TagTypes.GetTagReader | com/smartg/icc/tag/TagType.java:104-126 | the reader's `tagType` is the constant; there is none exactly for the tag signatures other than the profile description, and for the profileSequenceDesc and responseCurveSet16 types |
| TagTypes.LookupFromFirst | com/smartg/icc/tag/TagType.java:128-138 | the search from position i finds the first later constant with the value |
| TagTypes.LookupFirstMatch | com/smartg/icc/tag/TagType.java:128-138 | `create(v)` is the first constant with value v, and null exactly when none has it |
| TagTypes.Lookup | com/smartg/icc/tag/TagType.java:128-138 | the first-match search of `create` over the constants in declaration order; `LookupFirstMatch` states that it is the first constant with the value, and none exactly when no constant has it |
| TagTypes.Create | com/smartg/icc/tag/TagType.java:128-138 | the linear search gives `Lookup` |
| TagTypes.ShadowedNeverCreated | com/smartg/icc/tag/TagType.java:128-138 | a constant shadowed by an earlier one of the same value is never created |
| TagTypes.CollisionsResolveToType | com/smartg/icc/tag/TagType.java:56-87 | each of the seven values a tag type shares with a tag signature resolves to the tag type |
| TagTypes.DescResolvesToDescription | com/smartg/icc/tag/TagType.java:84 | 'desc' resolves to the description signature, whose reader is multiLocalizedUnicode |
| TagTypes.ShiftLeftByte | com/smartg/icc/tag/TagType.java:140-147 | `value <<= 8` moves each of the four low bytes up one place |
| TagTypes.TypeToString | com/smartg/icc/tag/TagType.java:140-147 | `toString(long)` is `SignatureString` of the value |
| Tags.GridSizeExact | com/smartg/icc/tag/Tag.java:415-418 | for positive counts whose product fits in an `int`, the size is that product |
| Tags.OffsetInRange | com/smartg/icc/tag/Tag.java:430-432 | a coordinate inside the grid has an offset inside the table |
| Tags.CLUT.Allocate | com/smartg/icc/tag/Tag.java:409-428 | the CLUT keeps its counts, with `size` grid points whose values are all 0 |
| Tags.CLUT.Get | com/smartg/icc/tag/Tag.java:430-432 | `get` gives `outputCount` values |
| Tags.NewCLUT | com/smartg/icc/tag/Tag.java:409-428 | fails exactly as `ClutFailure` says; otherwise a fresh CLUT of `GridSize` grid points whose values are all 0 |
| Tags.ClutGetInRange | com/smartg/icc/tag/Tag.java:409-432 | a coordinate inside the grid is answered with one grid point's values |
| Tags.DataFlagExclusive | com/smartg/icc/tag/Tag.java:218-224 | a data tag is never both binary and ASCII, and is one of them exactly for flag 0 or 1 |
| Tags.ReservedRoundTrip | com/smartg/icc/tag/Tag.java:59-65 | `getReserved` after `setReserved(v)` gives v, nothing else changes, and setting back restores the tag |

## Left out

- `Math.pow` and `ColorMatrix.inverse` are not part of this model: they are parameters (`Pow`, `MatrixInverse`) that the caller supplies.
- Floating point: Java `float` arithmetic is modelled as exact `real` arithmetic, without rounding, infinities or NaN. `1f / gamma` for a zero gamma gives 0 (`Curves.Reciprocal`).
- `new String(bytes)` and `String.getBytes()` use the platform charset, which the model takes to be ISO-8859-1. `toUpperCase` maps only 'a'..'z'.
- The names of a multiLocalizedUnicode tag are kept as raw UTF-16 bytes (`Utf16Text`), not decoded into strings.
- The `IOutils` helpers, `InputStream`, `ByteArrayInputStream` and `RandomAccessInput` are not part of this model. `Streams.ByteStream` and `TagTables.Window` stand for them. `IOutils.readShortBE` and `readShortLE` are assumed to return the unsigned 16-bit value, 0..65535 (`Streams.ByteStream.ReadU16BE`, `ReadU16LE`). That choice fixes the sign of every curve sample, lut table entry, date field and parametric function type; were they signed, values of 32768 and above would read as negative.
- `MDArray.getOffset` is not part of this model; it is taken to be the row-major offset (`Tags.Offset`).
- Logging, `print()` and the `toString()` methods other than the signature ones are left out, because they produce only text for a log.
- `DateTimeNumber.read(DataInput)` and the date getters are left out. The header reads the `InputStream` overload.
- `ICC_BasedCS`, `createSRGB`, `ICCProfile(ICC_Profile)` and `profileBytes` depend on the AWT colour classes, and are left out.
- `PrimaryPlatform`, `DeviceAttributes` and `ProfileSignatire` are kept as their raw numbers.
- The plain header getters (ICCProfile.java:167-201, 210-220) return fields of `Headers.HeaderFields` directly, and have no members of their own.
- The XYZ tag's own array and the profile's column are two arrays in the model. The Java code shares one array between them, so a caller who changes one through `getRedColumn` changes the tag too; the model does not capture that.
- `IccProfiles.IccProfile.Valid` states the invariant of the curves and arrays only. That they were wired from the table is `LoadedFrom`, which the constructor establishes and later calls do not restate.
- ColorTransformers.ToPcs: its own contract gives only the length; what it computes is stated by `FromPcsToPcs`, `InvertibleFromPcsToPcs` and `GrayFromPcsToPcs`.
- ColorTransformers.FromPcs: its own contract gives the length and the [0, 1] range only; the round trip is `FromPcsToPcs` and `InvertibleFromPcsToPcs`.
- ColorTransformers.FromPcsToPcs: it takes the curve round trip as a hypothesis. `InvertibleFromPcsToPcs` and `GrayFromPcsToPcs` discharge it for identity and gamma curves only, and only under the pow law `PowUndoes`, since `Math.pow` is a parameter; no round trip is stated for sampled tables or parametric curves.
- Curves.InverseTable: its own contract gives only the length; the slots are stated by `MonotoneInverseTable` for the non-decreasing tables a profile holds, and no property is stated for other tables.
- Curves.ParametricCurve.SampledInverse: its own contract gives only the length; the slots are stated by `SampleSlotIsRawIndex`.
- TagDispatch.ReadCurves and TagDispatch.ReadCurveSection do not state which bytes each embedded curve came from, only the count, the validity of the curves and the error cases.
- TagDispatch.ReadLutAtoB and TagDispatch.ReadLutAtoBSections: they state the header fields, which sections are present, the number of curve slots, the matrix and the CLUT (`ClutAt`), but not which bytes the embedded B, M and A curves came from nor which slots stay null.
- TagDispatch.ReadTag, TagDispatch.ReadCurveOrLutTag, TagTables.DecodeEntry, TagTables.TagTable.ReadTags, IccProfiles.DecodeTags and IccProfiles.DecodeTable: for the curve and lut readers they state the samples, the parameters, the header fields and a lutAtoBType's matrix, not a curve's reserved words, a lut's CLUT cells and tables, or a lutAtoBType's embedded curves and CLUT. `ReadCurve`, `ReadParametricCurve` and `ReadLut` state those themselves; `ReadLutAtoB` states the CLUT but not the embedded curves.
- Tags.CLUT.Get: it states the length of the values only; which grid point answers is `Tags.OffsetInRange` and `Tags.ClutGetInRange`.

## Findings

| source | as written | input that shows it | evidently intended | confidence | as-written member | corrected member |
|---|---|---|---|---|---|---|
| com/smartg/icc/ICCProfile.java:98 | `grayTRC` is fetched with `BLUE_TRC_SIG` | a grey profile whose tone curve is tagged `kTRC` and that has no `bTRC`: `grayTRC` is null, so `getColorTransformer` throws `NullPointerException` in `CT1` | fetch it with `GRAY_TRC_SIG` | not executed | IccProfiles.GrayTrcFromBlueSig | IccProfiles.WireWithGray |
| com/smartg/icc/ProfileColorSpaceType.java:87-90 | `get` upper-cases the trimmed signature before looking up "CS_" + it | the value 0x59436272 of `CS_YCC` ("YCbr"): the lookup is for "CS_YCBR", which no constant has, so `get` throws `IllegalArgumentException` | `get(value(c)) == c` for every constant, `CS_YCC` included | not executed | ProfileColorSpaces.GetYcc | ProfileColorSpaces.CorrectedGetValue |
