/** The readers of lut8Type and lut16Type and the CLUT fill routines they share with lutAtoBType. */
module LutReaders {
  import opened Wrappers
  import opened JavaNum
  import opened Streams
  import opened TagTypes
  import opened Tags
  import opened TagReaders

  /** What `read()` gives at position x: the byte, or -1 past the end. */
  function ByteOrEnd(d: seq<byte>, x: int): int
    requires 0 <= x
  {
    if x < |d| then d[x] else -1
  }

  /** One `read()` from a stream that reads as if at x. */
  method ReadByteAt(input: ByteStream, ghost x: int) returns (b: int)
    requires 0 <= x && input.At(x)
    modifies input
    ensures b == ByteOrEnd(input.data, x) && input.At(x + 1)
    ensures x < |input.data| ==> input.pos == x + 1
  {
    var r := input.Read();
    b := r.value;
  }

  /** n samples of `read() / 255f` from position x on. */
  function Unit8sAt(d: seq<byte>, x: int, n: nat): (r: seq<real>)
    requires 0 <= x
    ensures |r| == n
  {
    seq(n, i requires 0 <= i < n => ByteOrEnd(d, x + i) as real / 255.0)
  }

  /** n samples of `readShortBE() / 65535f` from q on. */
  function Unit16sAt(d: seq<byte>, q: int, n: nat): (r: seq<real>)
    requires n > 0 ==> 0 <= q && q + 2 * n <= |d|
    ensures |r| == n
  {
    seq(n, i requires 0 <= i < n => U16At(d, q + 2 * i) as real / 65535.0)
  }

  /** n cells of a 16-bit CLUT from q on: `read_u16Fixed16() / 65535f`, four bytes divided twice by 65535. */
  function Clut16sAt(d: seq<byte>, q: int, n: nat): (r: seq<real>)
    requires n > 0 ==> 0 <= q && q + 4 * n <= |d|
    ensures |r| == n
  {
    seq(n, i requires 0 <= i < n => FixedAt(d, q + 4 * i) / 65535.0)
  }

  /** A 16-bit CLUT cell never reaches 1 in size: the largest four-byte value over 65535 twice is about 0.50002. */
  lemma Clut16CellBelowOne(d: seq<byte>, q: int, n: nat)
    requires n > 0 ==> 0 <= q && q + 4 * n <= |d|
    ensures forall i :: 0 <= i < n ==> -0.6 < Clut16sAt(d, q, n)[i] < 0.6
  {
    forall i | 0 <= i < n
      ensures -0.6 < Clut16sAt(d, q, n)[i] < 0.6
    {
      var raw := S32At(d, q + 4 * i);
      assert -0.6 * 65535.0 * 65535.0 < raw as real < 0.6 * 65535.0 * 65535.0;
    }
  }

  /** n calls of `read() / 255f`. */
  method ReadUnit8s(input: ByteStream, n: nat, ghost x: int) returns (s: seq<real>)
    requires 0 <= x && input.At(x)
    modifies input
    ensures s == Unit8sAt(input.data, x, n) && input.At(x + n)
  {
    s := [];
    for i := 0 to n
      invariant input.At(x + i) && s == Unit8sAt(input.data, x, i)
    {
      var b := ReadByteAt(input, x + i);
      s := s + [b as real / 255.0];
    }
  }

  /** n calls of `readShortBE() / 65535f`. */
  method ReadUnit16s(input: ByteStream, n: nat) returns (r: Result<seq<real>>)
    modifies input
    ensures r.Ok? <==> n == 0 || old(input.CanRead(2 * n))
    ensures r.Ok? ==> r.value == Unit16sAt(input.data, old(input.pos), n) && input.pos == old(input.pos) + 2 * n
  {
    ghost var q := input.pos;
    var s := [];
    for i := 0 to n
      invariant input.pos == q + 2 * i
      invariant i > 0 ==> 0 <= q && q + 2 * i <= |input.data|
      invariant s == Unit16sAt(input.data, q, i)
    {
      var k :- input.ReadU16BE();
      s := s + [k as real / 65535.0];
    }
    return Ok(s);
  }

  /** n calls of `read_u16Fixed16() / 65535f`, the inner loop of `readClut16`. */
  method ReadClut16Row(input: ByteStream, n: nat) returns (r: Result<seq<real>>)
    modifies input
    ensures r.Ok? <==> n == 0 || old(input.CanRead(4 * n))
    ensures r.Ok? ==> r.value == Clut16sAt(input.data, old(input.pos), n) && input.pos == old(input.pos) + 4 * n
  {
    ghost var q := input.pos;
    var s := [];
    for i := 0 to n
      invariant input.pos == q + 4 * i
      invariant i > 0 ==> 0 <= q && q + 4 * i <= |input.data|
      invariant s == Clut16sAt(input.data, q, i)
    {
      var x :- ReadFixed(input);
      s := s + [x / 65535.0];
    }
    return Ok(s);
  }

  /** The rows `readClut16` reads: m grid points of n cells each, four bytes per cell. */
  method ReadClut16Rows(input: ByteStream, m: nat, n: nat) returns (r: Result<seq<seq<real>>>)
    modifies input
    ensures r.Ok? <==> m * n == 0 || old(input.CanRead(m * (4 * n)))
    ensures r.Ok? ==> var q := old(input.pos); var w := 4 * n;
      |r.value| == m && input.pos == q + m * w &&
      forall k :: 0 <= k < m ==>
        (w > 0 ==> 0 <= q + k * w && q + k * w + w <= |input.data|) &&
        r.value[k] == Clut16sAt(input.data, q + k * w, n)
  {
    ghost var q := input.pos;
    var w := 4 * n;
    var rows := [];
    for g := 0 to m
      invariant input.pos == q + g * w
      invariant g > 0 && w > 0 ==> 0 <= q && q + g * w <= |input.data|
      invariant |rows| == g
      invariant forall k :: 0 <= k < g ==>
        (w > 0 ==> 0 <= q + k * w && q + k * w + w <= q + g * w) &&
        rows[k] == Clut16sAt(input.data, q + k * w, n)
    {
      StrideStep(g, m, w);
      var row :- ReadClut16Row(input, n);
      rows := rows + [row];
    }
    return Ok(rows);
  }

  /** The grid points of a 16-bit CLUT of o outputs read from c on: point g holds the cells at c + 4og. */
  predicate Clut16RowsAt(d: seq<byte>, c: int, table: seq<GridPoint>, o: nat)
  {
    forall g :: 0 <= g < |table| ==>
      (o > 0 ==> 0 <= c + g * (4 * o) && c + g * (4 * o) + 4 * o <= |d|) &&
      table[g].data == Clut16sAt(d, c + g * (4 * o), o)
  }

  /** The grid points of an 8-bit CLUT of o outputs read from x on: point g holds the `read()` results at x + og. */
  predicate Clut8RowsAt(d: seq<byte>, x: int, table: seq<GridPoint>, o: nat)
    requires 0 <= x
  {
    forall g :: 0 <= g < |table| ==> table[g].data == Unit8sAt(d, x + g * o, o)
  }

  /** `readClut16`: every grid point in turn, every output of it in turn, four bytes per cell; returns the number
      of cells read, `table.length * outputCount`. */
  method ReadClut16(clut: CLUT, input: ByteStream) returns (r: Result<int>)
    requires clut.Valid()
    modifies clut, input
    ensures clut.Valid() && |clut.table| == old(|clut.table|)
    ensures var cells := |clut.table| * clut.outputCount;
      r.Ok? <==> cells == 0 || old(input.CanRead(4 * cells))
    ensures r.Ok? ==> r.value == |clut.table| * clut.outputCount && input.pos == old(input.pos) + 4 * r.value
    ensures r.Ok? && |clut.table| > 0 ==> Clut16RowsAt(input.data, old(input.pos), clut.table, clut.outputCount)
  {
    var m := |clut.table|;
    var n := if m == 0 then 0 else clut.outputCount;
    assert m * (4 * n) == 4 * (m * n);
    var rows :- ReadClut16Rows(input, m, n);
    clut.table := seq(m, g requires 0 <= g < m => GridPoint(rows[g]));
    return Ok(m * n);
  }

  /** The rows `readClut8` reads: m grid points of n cells each, one `read()` per cell, -1 once the data has ended. */
  method ReadClut8Rows(input: ByteStream, m: nat, n: nat, ghost x: int) returns (rows: seq<seq<real>>)
    requires 0 <= x && input.At(x)
    modifies input
    ensures |rows| == m && input.At(x + m * n)
    ensures forall k :: 0 <= k < m ==> rows[k] == Unit8sAt(input.data, x + k * n, n)
  {
    rows := [];
    for g := 0 to m
      invariant input.At(x + g * n) && |rows| == g
      invariant forall k :: 0 <= k < g ==> rows[k] == Unit8sAt(input.data, x + k * n, n)
    {
      assert (g + 1) * n == g * n + n;
      var row := ReadUnit8s(input, n, x + g * n);
      rows := rows + [row];
    }
  }

  /** `readClut8`: every grid point in turn, every output of it in turn, one `read() / 255f` per cell, -1 once
      the data has ended; returns the number of cells read. */
  method ReadClut8(clut: CLUT, input: ByteStream, ghost x: int) returns (count: int)
    requires clut.Valid() && 0 <= x && input.At(x)
    modifies clut, input
    ensures clut.Valid() && |clut.table| == old(|clut.table|)
    ensures count == |clut.table| * clut.outputCount && input.At(x + count)
    ensures |clut.table| > 0 ==> Clut8RowsAt(input.data, x, clut.table, clut.outputCount)
  {
    var m := |clut.table|;
    var n := if m == 0 then 0 else clut.outputCount;
    var rows := ReadClut8Rows(input, m, n, x);
    clut.table := seq(m, g requires 0 <= g < m => GridPoint(rows[g]));
    count := m * n;
  }

  /** n bytes from q on are all there, or n is not positive (and nothing is read). */
  predicate Fits(d: seq<byte>, q: int, n: int)
  {
    n <= 0 || (0 <= q && q + n <= |d|)
  }

  /** b to the power e. */
  function Power(b: nat, e: nat): nat
  {
    if e == 0 then 1 else Power(b, e - 1) * b
  }

  /** The grid size the CLUT constructor computes for i inputs of g grid points each (`gpCount` filled with g). */
  function LutGridSize(g: int, i: int): int
    requires 1 <= i
  {
    GridSize(seq(i, _ => g), i)
  }

  /** The length of the `clutValues` array, `(int) (Math.pow(G, I) * O)`, taken as the exact power and product
      saturated by the cast. A double loses exactness past 2^53 and overflows to infinity past about 2^1024 (G^I
      can reach 255^255), but the cast saturates both to the largest int, as it does the exact value. */
  function ClutValuesLength(g: nat, i: nat, o: nat): (r: int32)
    ensures 0 <= r
  {
    FloatToInt((Power(g, i) * o) as real)
  }

  /** The product of i copies of g is g to the power i. */
  lemma {:induction false} ProductOfCopies(g: int, i: nat)
    requires 0 <= g
    ensures Product(seq(i, _ => g)) == Power(g, i)
  {
    if i > 0 {
      var s := seq(i, _ => g);
      assert s[..i - 1] == seq(i - 1, _ => g);
      ProductOfCopies(g, i - 1);
    }
  }

  /** When g^i fits in an `int`, the CLUT of a lut has g^i grid points. */
  lemma LutGridSizeIsPower(g: int, i: nat)
    requires 1 <= g < TWO_31 && 1 <= i && Power(g, i) < TWO_31
    ensures LutGridSize(g, i) == Power(g, i)
  {
    var s := seq(i, _ => g);
    assert s[..i] == s;
    ProductOfCopies(g, i);
    GridSizeExact(s, i);
  }

  /** When g^i * o fits in an `int`, the `clutValues` array is exactly as long as the CLUT has cells. */
  lemma ClutValuesMatchGrid(g: int, i: nat, o: nat)
    requires 1 <= g < TWO_31 && 1 <= i && Power(g, i) * o < TWO_31 - 1
    ensures ClutValuesLength(g, i, o) == LutGridSize(g, i) * o
  {
    var p := Power(g, i);
    var x := (p * o) as real;
    assert 0.0 <= x < 2147483647.0 && x.Floor == p * o;
    if o > 0 {
      assert p * o == p + p * (o - 1);
      assert 0 <= p * (o - 1);
      LutGridSizeIsPower(g, i);
    }
  }

  /** The fixed part of a lut8Type or lut16Type: reserved, four single-byte counts, the 3x3 matrix and the two
      16-bit table lengths. */
  datatype LutHeader = LutHeader(reserved: int, inputs: int, outputs: int, gridPoints: int, padding: int,
                                 e: seq<real>, inputEntries: int, outputEntries: int)

  /** The header as it lies at p when all 48 bytes are there. */
  function LutHeaderAt(d: seq<byte>, p: int): LutHeader
    requires 0 <= p && p + 48 <= |d|
  {
    LutHeader(U32At(d, p), d[p + 4], d[p + 5], d[p + 6], d[p + 7], FixedsAt(d, p + 8, 9), U16At(d, p + 44), U16At(d, p + 46))
  }

  /** Reads the 48-byte header of `LutReader.read`. The four counts come from `read()`, so a header cut short
      there leaves -1 in them, but then the matrix read fails: the header is read exactly when all of it is there. */
  method ReadLutHeader(input: ByteStream) returns (r: Result<LutHeader>)
    modifies input
    ensures r.Ok? <==> old(input.CanRead(48))
    ensures r.Ok? ==> r.value == LutHeaderAt(input.data, old(input.pos)) && input.pos == old(input.pos) + 48
  {
    ghost var p := input.pos;
    var reserved :- input.ReadU32BE();
    // pos is not negative here, so the reads cannot fail
    var b := input.ReadBytesOrEnd(4);
    var counts := b.value;
    var e :- ReadFixeds(input, 9);
    var n :- input.ReadU16BE();
    var m :- input.ReadU16BE();
    return Ok(LutHeader(reserved, counts[0], counts[1], counts[2], counts[3], e, n, m));
  }

  /** Where the tables of a lut16Type lie from q on: ni two-byte input entries, `cells` four-byte CLUT cells and
      mo two-byte output entries, each run either empty or inside the data. */
  predicate Lut16Fits(d: seq<byte>, q: int, ni: nat, cells: int, mo: nat)
  {
    Fits(d, q, 2 * ni) && Fits(d, q + 2 * ni, 4 * cells) && Fits(d, q + 2 * ni + 4 * cells, 2 * mo)
  }

  /** What the tables of a lut16Type read from q on hold. */
  predicate Lut16TablesAt(d: seq<byte>, q: int, ni: nat, mo: nat, table: seq<GridPoint>, o: nat,
                          inputTables: seq<real>, outputTables: seq<real>)
  {
    Lut16Fits(d, q, ni, |table| * o, mo) &&
    inputTables == Unit16sAt(d, q, ni) && outputTables == Unit16sAt(d, q + 2 * ni + 4 * (|table| * o), mo) &&
    (|table| > 0 ==> Clut16RowsAt(d, q + 2 * ni, table, o))
  }

  /** What the tables of a lut8Type read from x on hold: `read()` results, -1 past the end. */
  predicate Lut8TablesAt(d: seq<byte>, x: int, ni: nat, mo: nat, table: seq<GridPoint>, o: nat,
                         inputTables: seq<real>, outputTables: seq<real>)
  {
    0 <= x &&
    inputTables == Unit8sAt(d, x, ni) && outputTables == Unit8sAt(d, x + ni + |table| * o, mo) &&
    (|table| > 0 ==> Clut8RowsAt(d, x + ni, table, o))
  }

  /** The three tables of a lut16Type: the input tables (ni entries), the CLUT, the output tables (mo entries). */
  method ReadLut16Tables(clut: CLUT, input: ByteStream, ni: nat, mo: nat) returns (r: Result<(seq<real>, seq<real>)>)
    requires clut.Valid() && 0 <= clut.outputCount
    modifies clut, input
    ensures clut.Valid() && |clut.table| == old(|clut.table|)
    ensures r.Ok? <==> Lut16Fits(input.data, old(input.pos), ni, |clut.table| * clut.outputCount, mo)
    ensures r.Ok? ==> Lut16TablesAt(input.data, old(input.pos), ni, mo, clut.table, clut.outputCount, r.value.0, r.value.1)
  {
    ghost var d, q := input.data, input.pos;
    var inputTables :- ReadUnit16s(input, ni);
    assert Fits(d, q, 2 * ni) && input.pos == q + 2 * ni;
    var count :- ReadClut16(clut, input);
    assert Fits(d, q + 2 * ni, 4 * count) && input.pos == q + 2 * ni + 4 * count;
    var outputTables :- ReadUnit16s(input, mo);
    return Ok((inputTables, outputTables));
  }

  /** The three tables of a lut8Type, one `read() / 255f` per entry, -1 once the data has ended. */
  method ReadLut8Tables(clut: CLUT, input: ByteStream, ni: nat, mo: nat, ghost x: int) returns (tables: (seq<real>, seq<real>))
    requires clut.Valid() && 0 <= clut.outputCount && 0 <= x && input.At(x)
    modifies clut, input
    ensures clut.Valid() && |clut.table| == old(|clut.table|)
    ensures Lut8TablesAt(input.data, x, ni, mo, clut.table, clut.outputCount, tables.0, tables.1)
  {
    var inputTables := ReadUnit8s(input, ni, x);
    var count := ReadClut8(clut, input, x + ni);
    var outputTables := ReadUnit8s(input, mo, x + ni + count);
    return (inputTables, outputTables);
  }

  /** The header at p is all there, names at least one input, and its grid size does not wrap negative: the
      conditions under which `LutReader.read` gets past `new CLUT`. */
  predicate LutHeaderUsable(d: seq<byte>, p: int)
  {
    0 <= p && p + 48 <= |d| && d[p + 4] > 0 && LutGridSize(d[p + 6], d[p + 4]) >= 0
  }

  /** The fields a lut tag holds by value, as header h gives them. */
  predicate LutHeaderFieldsFrom(t: Tag, tagType: TagType, h: LutHeader)
  {
    t.Lut? && t.tagType == tagType && t.reserved == h.reserved && t.numberOfInputChannels == h.inputs &&
    t.numberOfOutputChannels == h.outputs && t.numberOfClutGridPoints == h.gridPoints && t.padding == h.padding &&
    t.e == h.e && t.numberOfInputTableEntries == h.inputEntries && t.numberOfOutputTableEntries == h.outputEntries &&
    0 <= h.inputs && 0 <= h.outputs && 0 <= h.gridPoints && 0 <= h.inputEntries && 0 <= h.outputEntries &&
    t.clutValues == seq(ClutValuesLength(h.gridPoints, h.inputs, h.outputs), _ => 0.0)
  }

  /** The fields of a lut tag built from header h and a fresh-looking CLUT. */
  predicate LutFieldsFrom(t: Tag, tagType: TagType, h: LutHeader)
    reads if t.Lut? then {t.clut} else {}
  {
    LutHeaderFieldsFrom(t, tagType, h) &&
    t.clut.Valid() && t.clut.inputCount == h.inputs && t.clut.outputCount == h.outputs &&
    t.clut.dims == seq(h.inputs, _ => h.gridPoints) && 1 <= h.inputs &&
    |t.clut.table| == LutGridSize(h.gridPoints, h.inputs) >= 0
  }

  /** `LutReader.read` succeeds on the data at p: the header is usable and, for lut16Type, whose reads fail at
      the end of the data, all three tables are there too. */
  predicate LutReadableAt(d: seq<byte>, p: int, tagType: TagType)
  {
    LutHeaderUsable(d, p) &&
    (tagType == Lut16Type ==>
      var h := LutHeaderAt(d, p);
      Lut16Fits(d, p + 48, h.inputEntries * h.inputs, LutGridSize(h.gridPoints, h.inputs) * h.outputs,
                h.outputEntries * h.outputs))
  }

  /** The tables of lut tag t read from p: 16-bit or 8-bit ones by the tag's type, zeros for any other type. */
  predicate LutTablesAt(d: seq<byte>, p: int, t: Tag)
    reads if t.Lut? then {t.clut} else {}
  {
    t.Lut? && 0 <= t.numberOfInputTableEntries * t.numberOfInputChannels &&
    0 <= t.numberOfOutputTableEntries * t.numberOfOutputChannels && 0 <= t.numberOfOutputChannels &&
    var ni, mo := t.numberOfInputTableEntries * t.numberOfInputChannels, t.numberOfOutputTableEntries * t.numberOfOutputChannels;
    if t.tagType == Lut16Type then
      Lut16TablesAt(d, p + 48, ni, mo, t.clut.table, t.numberOfOutputChannels, t.inputTables, t.outputTables)
    else if t.tagType == Lut8Type then
      Lut8TablesAt(d, p + 48, ni, mo, t.clut.table, t.numberOfOutputChannels, t.inputTables, t.outputTables)
    else
      t.inputTables == seq(ni, _ => 0.0) && t.outputTables == seq(mo, _ => 0.0)
  }

  /** The part of `LutReader.read` after the CLUT is built: the tables by the tag's type. */
  method ReadLutTables(tagType: TagType, clut: CLUT, input: ByteStream, ni: nat, mo: nat)
    returns (r: Result<(seq<real>, seq<real>)>)
    requires clut.Valid() && 0 <= clut.outputCount && 0 <= input.pos
    modifies clut, input
    ensures clut.Valid() && |clut.table| == old(|clut.table|)
    ensures r.Ok? <==> tagType != Lut16Type || Lut16Fits(input.data, old(input.pos), ni, |clut.table| * clut.outputCount, mo)
    ensures r.Ok? && tagType == Lut16Type ==>
      Lut16TablesAt(input.data, old(input.pos), ni, mo, clut.table, clut.outputCount, r.value.0, r.value.1)
    ensures r.Ok? && tagType == Lut8Type ==>
      Lut8TablesAt(input.data, old(input.pos), ni, mo, clut.table, clut.outputCount, r.value.0, r.value.1)
    ensures r.Ok? && tagType != Lut16Type && tagType != Lut8Type ==>
      r.value == (seq(ni, _ => 0.0), seq(mo, _ => 0.0))
  {
    if tagType == Lut16Type {
      r := ReadLut16Tables(clut, input, ni, mo);
    } else if tagType == Lut8Type {
      var tables := ReadLut8Tables(clut, input, ni, mo, input.pos);
      r := Ok(tables);
    } else {
      r := Ok((seq(ni, _ => 0.0), seq(mo, _ => 0.0)));
    }
  }

  /** The first part of `LutReader.read`: the header, then the CLUT of I inputs with G grid points each. */
  method ReadLutStart(input: ByteStream) returns (r: Result<(LutHeader, CLUT)>)
    modifies input
    ensures r.Ok? <==> LutHeaderUsable(input.data, old(input.pos))
    ensures var p := old(input.pos); var d := input.data;
      old(input.CanRead(48)) && d[p + 4] == 0 ==> r == Err(IndexOutOfBounds)
    ensures var p := old(input.pos); var d := input.data;
      old(input.CanRead(48)) && d[p + 4] > 0 && LutGridSize(d[p + 6], d[p + 4]) < 0 ==> r == Err(NegativeArraySize)
    ensures r.Ok? ==> var h := r.value.0; var clut := r.value.1;
      h == LutHeaderAt(input.data, old(input.pos)) && input.pos == old(input.pos) + 48 &&
      fresh(clut) && clut.Valid() && clut.inputCount == h.inputs && clut.outputCount == h.outputs &&
      clut.dims == seq(h.inputs, _ => h.gridPoints) && 1 <= h.inputs &&
      |clut.table| == LutGridSize(h.gridPoints, h.inputs) >= 0
  {
    var h :- ReadLutHeader(input);
    var gpCount := seq(h.inputs, _ => h.gridPoints);
    var clut :- NewCLUT(h.inputs, gpCount, h.outputs);
    return Ok((h, clut));
  }

  /** `LutReader.read`, for lut16Type and lut8Type: the header, the tables sized from it, a CLUT of I inputs with
      G grid points each, then (by the tag's own type) the 16-bit or 8-bit tables; `clutValues` is allocated but
      never filled. */
  method ReadLut(tagType: TagType, input: ByteStream) returns (r: Result<Tag>)
    modifies input
    ensures r.Ok? <==> LutReadableAt(input.data, old(input.pos), tagType)
    ensures var p := old(input.pos); var d := input.data;
      old(input.CanRead(48)) && d[p + 4] == 0 ==> r == Err(IndexOutOfBounds)
    ensures var p := old(input.pos); var d := input.data;
      old(input.CanRead(48)) && d[p + 4] > 0 && LutGridSize(d[p + 6], d[p + 4]) < 0 ==> r == Err(NegativeArraySize)
    ensures r.Ok? ==> LutFieldsFrom(r.value, tagType, LutHeaderAt(input.data, old(input.pos))) &&
                      fresh(r.value.clut) && LutTablesAt(input.data, old(input.pos), r.value)
  {
    ghost var d, p := input.data, input.pos;
    var parts :- ReadLutStart(input);
    var h, clut := parts.0, parts.1;
    var i, o, g := h.inputs, h.outputs, h.gridPoints;
    var ni, mo := h.inputEntries * i, h.outputEntries * o;
    var tables :- ReadLutTables(tagType, clut, input, ni, mo);
    r := Ok(Lut(tagType, h.reserved, i, o, g, h.padding, h.e, h.inputEntries, h.outputEntries,
                tables.0, seq(ClutValuesLength(g, i, o), _ => 0.0), tables.1, clut));
  }
}
