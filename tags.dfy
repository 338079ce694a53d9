/** The decoded tags: one constructor per tag class, and the colour lookup table (CLUT) that lut16Type, lut8Type
    and lutAToBType carry (sections 10.8 to 10.11 of ICC.1:2010). */
module Tags {
  import opened Wrappers
  import opened JavaNum
  import opened TagTypes
  import opened Curves
  import opened DateTimes

  /** A `GridPoint`: the output values of one CLUT grid point. */
  datatype GridPoint = GridPoint(data: seq<real>)

  /** The table size the CLUT constructor computes: `gridPointCount[0]`, then multiplied in turn by each further
      count below n, with 32-bit wrap-around after every step. */
  function GridSize(gridPointCount: seq<int>, n: int): int
    requires 1 <= |gridPointCount| && n <= |gridPointCount|
    decreases n
  {
    if n <= 1 then S32(gridPointCount[0]) else S32(GridSize(gridPointCount, n - 1) * gridPointCount[n - 1])
  }

  /** The exact product of a sequence of numbers. */
  function Product(s: seq<int>): int
  {
    if s == [] then 1 else Product(s[..|s| - 1]) * s[|s| - 1]
  }

  /** For positive grid counts whose product fits in an `int`, the computed size is that product. */
  lemma {:induction false} GridSizeExact(gridPointCount: seq<int>, n: int)
    requires 1 <= n <= |gridPointCount|
    requires forall i :: 0 <= i < n ==> 1 <= gridPointCount[i] < TWO_31
    requires Product(gridPointCount[..n]) < TWO_31
    ensures GridSize(gridPointCount, n) == Product(gridPointCount[..n]) >= 1
  {
    var s := gridPointCount[..n];
    assert s[..n - 1] == gridPointCount[..n - 1];
    if n == 1 {
      assert Product(s[..0]) == 1;
    } else {
      ProductPositive(s[..n - 1]);
      var p := Product(s[..n - 1]);
      assert p * gridPointCount[n - 1] >= p * 1;
      GridSizeExact(gridPointCount, n - 1);
    }
  }

  /** A product of positive numbers is positive. */
  lemma {:induction false} ProductPositive(s: seq<int>)
    requires forall i :: 0 <= i < |s| ==> 1 <= s[i]
    ensures Product(s) >= 1
  {
    if s != [] {
      ProductPositive(s[..|s| - 1]);
      var p := Product(s[..|s| - 1]);
      assert p * s[|s| - 1] >= p * 1;
    }
  }

  /** The row-major offset of a coordinate in a grid with the given dimensions, the last axis varying fastest. */
  function Offset(dims: seq<int>, coords: seq<int>): int
    requires |coords| == |dims|
  {
    if dims == [] then 0
    else Offset(dims[..|dims| - 1], coords[..|coords| - 1]) * dims[|dims| - 1] + coords[|coords| - 1]
  }

  /** A coordinate inside the grid has an offset inside the table. */
  lemma {:induction false} OffsetInRange(dims: seq<int>, coords: seq<int>)
    requires |coords| == |dims|
    requires forall i :: 0 <= i < |dims| ==> 0 <= coords[i] < dims[i]
    ensures 0 <= Offset(dims, coords) < Product(dims)
  {
    if dims != [] {
      var n := |dims| - 1;
      OffsetInRange(dims[..n], coords[..n]);
      var o, p, d, c := Offset(dims[..n], coords[..n]), Product(dims[..n]), dims[n], coords[n];
      assert o + 1 <= p;
      assert (o + 1) * d <= p * d;
      assert o * d + c < (o + 1) * d;
    }
  }

  /** The exception the CLUT constructor raises, in the order Java evaluates it, or none. */
  function ClutFailure(inputCount: int, gridPointCount: seq<int>, outputCount: int): Option<Failure>
  {
    if |gridPointCount| == 0 || inputCount > |gridPointCount| then Some(IndexOutOfBounds)
    else if GridSize(gridPointCount, inputCount) < 0 then Some(NegativeArraySize)
    else if GridSize(gridPointCount, inputCount) > 0 && outputCount < 0 then Some(NegativeArraySize)
    else if inputCount < 0 then Some(NegativeArraySize)
    else None
  }

  /** Every value of every grid point is zero, as a new array leaves it. */
  predicate Zeroed(table: seq<GridPoint>)
  {
    forall g, o :: 0 <= g < |table| && 0 <= o < |table[g].data| ==> table[g].data[o] == 0.0
  }

  /** A `CLUT`: the grid dimensions and one grid point per cell of the grid. */
  class CLUT {
    const inputCount: int
    const outputCount: int
    const gridPointCount: seq<int>
    /** The first `inputCount` grid counts, the dimensions of the grid. */
    const dims: seq<int>
    /** The grid points; the readers overwrite their values. */
    var table: seq<GridPoint>

    /** Every grid point holds exactly `outputCount` values (so a grid with points has a non-negative output count). */
    predicate Valid()
      reads this
    {
      (|table| > 0 ==> outputCount >= 0) &&
      forall g :: 0 <= g < |table| ==> |table[g].data| == outputCount
    }

    /** The allocation part of `CLUT(inputCount, gridPointCount, outputCount)`, once its sizes are known. */
    constructor Allocate(inputCount: int, gridPointCount: seq<int>, outputCount: int, size: nat)
      requires 0 <= inputCount <= |gridPointCount| && (size == 0 || 0 <= outputCount)
      ensures this.inputCount == inputCount && this.outputCount == outputCount
      ensures this.gridPointCount == gridPointCount && dims == gridPointCount[..inputCount]
      ensures |table| == size && Valid()
      ensures Zeroed(table)
    {
      this.inputCount := inputCount;
      this.outputCount := outputCount;
      this.gridPointCount := gridPointCount;
      dims := gridPointCount[..inputCount];
      if size == 0 {
        table := [];
      } else {
        table := seq(size, _ => GridPoint(seq(outputCount, _ => 0.0)));
      }
    }

    /** `get(coords)`: the values at the grid point the coordinates address. */
    function Get(coords: seq<int>): (r: Result<seq<real>>)
      reads this
      requires |coords| == |dims|
      ensures r.Ok? ==> Valid() ==> |r.value| == outputCount
    {
      var k := Offset(dims, coords);
      if 0 <= k < |table| then Ok(table[k].data) else Err(IndexOutOfBounds)
    }
  }

  /** `new CLUT(inputCount, gridPointCount, outputCount)`: computes the table size, allocates one grid point of
      `outputCount` zeros per cell, and keeps the first `inputCount` grid counts as the dimensions. */
  method NewCLUT(inputCount: int, gridPointCount: seq<int>, outputCount: int) returns (r: Result<CLUT>)
    ensures r.Err? <==> ClutFailure(inputCount, gridPointCount, outputCount).Some?
    ensures r.Err? ==> r.error == ClutFailure(inputCount, gridPointCount, outputCount).value
    ensures r.Ok? ==> fresh(r.value) && r.value.Valid()
    ensures r.Ok? ==> r.value.inputCount == inputCount && r.value.outputCount == outputCount
    ensures r.Ok? ==> r.value.gridPointCount == gridPointCount && r.value.dims == gridPointCount[..inputCount]
    ensures r.Ok? ==> |r.value.table| == GridSize(gridPointCount, inputCount) && Zeroed(r.value.table)
  {
    if |gridPointCount| == 0 {
      return Err(IndexOutOfBounds);
    }
    var size := S32(gridPointCount[0]);
    var i := 1;
    while i < inputCount
      invariant 1 <= i <= |gridPointCount| && (i == 1 || i <= inputCount)
      invariant size == GridSize(gridPointCount, i)
    {
      if i >= |gridPointCount| {
        return Err(IndexOutOfBounds);
      }
      size := S32(size * gridPointCount[i]);
      i := i + 1;
    }
    assert inputCount <= |gridPointCount| && size == GridSize(gridPointCount, inputCount);
    if size < 0 {
      return Err(NegativeArraySize);
    }
    if size > 0 && outputCount < 0 {
      return Err(NegativeArraySize);
    }
    if inputCount < 0 {
      return Err(NegativeArraySize);
    }
    var clut := new CLUT.Allocate(inputCount, gridPointCount, outputCount, size);
    return Ok(clut);
  }

  /** A CLUT built from positive grid counts whose product fits in an `int` answers every coordinate inside the
      grid with the values of one grid point. */
  lemma ClutGetInRange(clut: CLUT, coords: seq<int>)
    requires clut.Valid() && 1 <= clut.inputCount <= |clut.gridPointCount|
    requires clut.dims == clut.gridPointCount[..clut.inputCount]
    requires |clut.table| == GridSize(clut.gridPointCount, clut.inputCount)
    requires forall i :: 0 <= i < clut.inputCount ==> 1 <= clut.gridPointCount[i] < TWO_31
    requires Product(clut.dims) < TWO_31
    requires |coords| == |clut.dims| && forall i :: 0 <= i < |coords| ==> 0 <= coords[i] < clut.dims[i]
    ensures clut.Get(coords).Ok? && |clut.Get(coords).value| == clut.outputCount
  {
    GridSizeExact(clut.gridPointCount, clut.inputCount);
    OffsetInRange(clut.dims, coords);
  }

  /** A decoded tag. The curve tags are the `Curve` and `ParametricCurve` objects themselves; every other tag is a
      value whose fields the reader fills once. `reserved` is the reserved field every tag carries. */
  datatype Tag =
    | Chromaticity(tagType: TagType, reserved: int, numberOfDeviceChannels: int, phosphorOrColorantType: int,
                   xy: seq<real>)
    | ColorantOrder(tagType: TagType, reserved: int, colorantCount: int, colorantIndexes: seq<int>)
    | ColorantTable(tagType: TagType, reserved: int, colorantCount: int, colorantNames: seq<seq<byte>>,
                    pcsValues0: seq<int>, pcsValues1: seq<int>, pcsValues2: seq<int>)
    | CurveTag(curve: Curve)
    | ParametricTag(parametric: ParametricCurve)
    | Data(tagType: TagType, reserved: int, dataFlag: int, bytes: seq<byte>)
    | DateTime(tagType: TagType, reserved: int, dateTime: DateTimeNumber)
    | Lut(tagType: TagType, reserved: int, numberOfInputChannels: int, numberOfOutputChannels: int,
          numberOfClutGridPoints: int, padding: int, e: seq<real>, numberOfInputTableEntries: int,
          numberOfOutputTableEntries: int, inputTables: seq<real>, clutValues: seq<real>, outputTables: seq<real>,
          clut: CLUT)
    | LutAtoB(tagType: TagType, reserved: int, numberOfInputChannels: int, numberOfOutputChannels: int,
              padding2: int, offsetToFirstBCurve: int, offsetToMatrix: int, offsetToFirstMCurve: int,
              offsetToClut: int, offsetToFirstACurve: int, bCurves: Option<seq<Option<ICurve>>>,
              mCurves: Option<seq<Option<ICurve>>>, aCurves: Option<seq<Option<ICurve>>>, matrix: seq<real>,
              clutSection: Option<CLUT>)
    | Measurement(tagType: TagType, reserved: int, standardObserver: int, xyz: seq<real>, geometry: int,
                  flare: real, standardIlluminant: int)
    | MultiLocalizedUnicode(tagType: TagType, reserved: int, numberOfNames: int, nameRecordSize: int,
                            nameLanguageCode: seq<int>, nameCountryCode: seq<int>, nameLength: seq<int>,
                            nameOffset: seq<int>, names: seq<seq<byte>>)
    | NamedColor2(tagType: TagType, reserved: int, vendorSpecificFlag: int, countOfNamedColors: int,
                  numberOfDeviceCoordinates: int, prefix: seq<byte>, suffix: seq<byte>, colorNames: seq<seq<byte>>,
                  colorPcsCoordinates: seq<seq<int>>, colorDeviceCoordinates: seq<seq<int>>)
    | S15Fixed16Array(tagType: TagType, reserved: int, fixedValues: seq<real>)
    | Signature(tagType: TagType, reserved: int, signature: int)
    | Text(tagType: TagType, reserved: int, bytes: seq<byte>)
    | Desc(tagType: TagType, reserved: int, size: int, bytes: seq<byte>)
    | UInt16Array(tagType: TagType, reserved: int, values: seq<int>)
    | UInt32Array(tagType: TagType, reserved: int, values: seq<int>)
    | UInt64Array(tagType: TagType, reserved: int, values: seq<int>)
    | UInt8Array(tagType: TagType, reserved: int, values: seq<int>)
    | ViewingConditions(tagType: TagType, reserved: int, illuminant: seq<real>, surround: seq<real>,
                        illuminantType: int)
    | XYZ(tagType: TagType, reserved: int, xyzNumbers: seq<seq<real>>)
  {
    /** `getTagType()`. */
    function TypeOf(): TagType
    {
      match this
      case CurveTag(c) => c.tagType
      case ParametricTag(p) => p.tagType
      case _ => tagType
    }

    /** `Data.isBinary()`. */
    predicate IsBinary()
      requires Data?
    {
      dataFlag == 0
    }

    /** `Data.isAscii()`. */
    predicate IsAscii()
      requires Data?
    {
      dataFlag == 1
    }

    /** The object behind a curve tag, as the `ICurve` interface. */
    predicate IsCurve()
    {
      CurveTag? || ParametricTag?
    }

    function AsCurve(): ICurve
      requires IsCurve()
    {
      if CurveTag? then TableCurve(curve) else ParamCurve(parametric)
    }
  }

  /** A data tag is binary or ASCII but never both, and neither for a flag other than 0 and 1. */
  lemma DataFlagExclusive(t: Tag)
    requires t.Data?
    ensures !(t.IsBinary() && t.IsAscii())
    ensures t.IsBinary() || t.IsAscii() <==> t.dataFlag == 0 || t.dataFlag == 1
  {
  }

  /** `setReserved(v)` on a tag held by value. */
  function WithReserved(t: Tag, v: int): (r: Tag)
    requires !t.IsCurve()
  {
    t.(reserved := v)
  }

  /** `getReserved()` after `setReserved(v)` gives v; the tag type and every other field are unchanged. */
  lemma ReservedRoundTrip(t: Tag, v: int)
    requires !t.IsCurve()
    ensures WithReserved(t, v).reserved == v
    ensures WithReserved(t, v).TypeOf() == t.TypeOf()
    ensures WithReserved(WithReserved(t, v), t.reserved) == t
  {
  }

  /** The fixed sizes the tag classes allocate and the readers keep: twelve matrix entries, three measurement and
      illuminant values, triples of XYZ numbers, nine lut matrix entries, 32-byte colour name prefixes, suffixes
      and names, and per-item arrays as long as their counts. */
  predicate WellShaped(t: Tag)
  {
    match t
    case Chromaticity(_, _, n, _, xy) => |xy| == 2 * n
    case ColorantOrder(_, _, n, ix) => |ix| == n
    case ColorantTable(_, _, n, names, p0, p1, p2) =>
      |names| == n && |p0| == n && |p1| == n && |p2| == n && forall i :: 0 <= i < n ==> |names[i]| == 32
    case CurveTag(c) => c.Valid()
    case ParametricTag(p) => p.WellFormed()
    case Lut(_, _, i, o, _, _, e, n, m, it, _, ot, _) => |e| == 9 && |it| == n * i && |ot| == m * o
    case LutAtoB(_, _, _, _, _, _, _, _, _, _, b, m, a, matrix, _) =>
      |matrix| == 12 && CurveSlotsValid(b) && CurveSlotsValid(m) && CurveSlotsValid(a)
    case Measurement(_, _, _, xyz, _, _, _) => |xyz| == 3
    case MultiLocalizedUnicode(_, _, n, _, lang, country, len, off, names) =>
      |lang| == n && |country| == n && |len| == n && |off| == n && |names| == n
    case NamedColor2(_, _, _, n, d, prefix, suffix, names, pcs, dev) =>
      |prefix| == 32 && |suffix| == 32 && |names| == n && |pcs| == n && |dev| == n &&
      (forall i :: 0 <= i < n ==> |names[i]| == 32 && |pcs[i]| == 3 && |dev[i]| == d)
    case ViewingConditions(_, _, ill, sur, _) => |ill| == 3 && |sur| == 3
    case XYZ(_, _, numbers) => forall i :: 0 <= i < |numbers| ==> |numbers[i]| == 3
    case _ => true
  }

  /** Every curve a lutAToB section holds can be evaluated. */
  predicate CurveSlotsValid(curves: Option<seq<Option<ICurve>>>)
  {
    curves.Some? ==> forall i :: 0 <= i < |curves.value| ==> curves.value[i].Some? ==> curves.value[i].value.Valid()
  }
}
