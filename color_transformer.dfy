/** The transforms between device values and the profile connection space: a grey tone curve, or three tone
    curves and a 3x3 matrix (the monochrome and matrix/TRC models of sections F.2 and F.3 of ICC.1:2010). */
module ColorTransformers {
  import opened Wrappers
  import opened Curves

  /** A `ColorMatrix` built from three columns: (rX, rY, rZ) is the red column, and so on. */
  datatype ColorMatrix = ColorMatrix(rX: real, rY: real, rZ: real, gX: real, gY: real, gZ: real,
                                     bX: real, bY: real, bZ: real)

  /** `ColorMatrix.inverse`, which is not part of this model, is a parameter. */
  type MatrixInverse = ColorMatrix -> ColorMatrix

  /** `new ColorMatrix(red, green, blue)`. */
  function FromColumns(red: seq<real>, green: seq<real>, blue: seq<real>): ColorMatrix
    requires |red| >= 3 && |green| >= 3 && |blue| >= 3
  {
    ColorMatrix(red[0], red[1], red[2], green[0], green[1], green[2], blue[0], blue[1], blue[2])
  }

  /** A 3x3 matrix given by rows. */
  predicate IsSquare3(m: seq<seq<real>>)
  {
    |m| == 3 && forall i :: 0 <= i < 3 ==> |m[i]| == 3
  }

  /** The matrix by rows: row i holds component i of the red, green and blue columns. */
  function Rows(m: ColorMatrix): (r: seq<seq<real>>)
    ensures IsSquare3(r)
    ensures r[0][0] == m.rX && r[1][0] == m.rY && r[2][0] == m.rZ
    ensures r[0][1] == m.gX && r[1][1] == m.gY && r[2][1] == m.gZ
    ensures r[0][2] == m.bX && r[1][2] == m.bY && r[2][2] == m.bZ
  {
    [[m.rX, m.gX, m.bX], [m.rY, m.gY, m.bY], [m.rZ, m.gZ, m.bZ]]
  }

  /** A vector of three components. */
  datatype Vec3 = Vec3(x: real, y: real, z: real)

  /** The red, green and blue columns. */
  function Red(m: ColorMatrix): Vec3 { Vec3(m.rX, m.rY, m.rZ) }
  function Green(m: ColorMatrix): Vec3 { Vec3(m.gX, m.gY, m.gZ) }
  function Blue(m: ColorMatrix): Vec3 { Vec3(m.bX, m.bY, m.bZ) }

  /** The rows: component i of the red, green and blue columns. */
  function RowX(m: ColorMatrix): Vec3 { Vec3(m.rX, m.gX, m.bX) }
  function RowY(m: ColorMatrix): Vec3 { Vec3(m.rY, m.gY, m.bY) }
  function RowZ(m: ColorMatrix): Vec3 { Vec3(m.rZ, m.gZ, m.bZ) }

  /** The dot product. */
  function Dot(u: Vec3, v: Vec3): real
  {
    u.x * v.x + u.y * v.y + u.z * v.z
  }

  /** The matrix times a vector, row by row, as `toPCS` computes `rX * r + gX * g + bX * b` and so on. */
  function Apply(m: ColorMatrix, v: Vec3): Vec3
  {
    Vec3(Dot(RowX(m), v), Dot(RowY(m), v), Dot(RowZ(m), v))
  }

  /** The product of two matrices: each column of b mapped by a. */
  function Times(a: ColorMatrix, b: ColorMatrix): ColorMatrix
  {
    var r, g, bl := Apply(a, Red(b)), Apply(a, Green(b)), Apply(a, Blue(b));
    ColorMatrix(r.x, r.y, r.z, g.x, g.y, g.z, bl.x, bl.y, bl.z)
  }

  /** The identity matrix. */
  const Identity := ColorMatrix(1.0, 0.0, 0.0, 0.0, 1.0, 0.0, 0.0, 0.0, 1.0)

  /** `b` undoes `a`: their product is the identity. */
  predicate Undoes(b: ColorMatrix, a: ColorMatrix)
  {
    Times(b, a) == Identity
  }

  /** A row times the image of v under b is the row times b, times v. */
  lemma DotApply(u: Vec3, b: ColorMatrix, v: Vec3)
    ensures Dot(u, Apply(b, v)) == Dot(Vec3(Dot(u, Red(b)), Dot(u, Green(b)), Dot(u, Blue(b))), v)
  {
  }

  /** Applying a product is applying one matrix after the other. */
  lemma ApplyTimes(a: ColorMatrix, b: ColorMatrix, v: Vec3)
    ensures Apply(a, Apply(b, v)) == Apply(Times(a, b), v)
  {
    DotApply(RowX(a), b, v);
    DotApply(RowY(a), b, v);
    DotApply(RowZ(a), b, v);
  }

  /** A matrix that undoes another gives back every vector the other one maps. */
  lemma UndoesApply(b: ColorMatrix, a: ColorMatrix, v: Vec3)
    requires Undoes(b, a)
    ensures Apply(b, Apply(a, v)) == v
  {
    ApplyTimes(b, a, v);
  }

  /** The clamping of `CT3.fromPCS`: above 1 becomes 1, below 0 becomes 0. */
  function Clamp(x: real): (r: real)
    ensures 0.0 <= r <= 1.0
    ensures 0.0 <= x <= 1.0 ==> r == x
  {
    if x > 1.0 then 1.0 else if x < 0.0 then 0.0 else x
  }

  /** A `ColorTransformer`: `CT1` holds the grey curve and its inverse, `CT3` the three curves, their inverses,
      the matrix (`rX` .. `bZ`) and its inverse (`rXi` .. `bZi`). Their fields are set once, by the constructors. */
  datatype ColorTransformer =
    | CT1(grayTrc: ICurve, grayTrcInverse: ICurve)
    | CT3(redTrc: ICurve, greenTrc: ICurve, blueTrc: ICurve,
          redTrcInverse: ICurve, greenTrcInverse: ICurve, blueTrcInverse: ICurve,
          forward: ColorMatrix, backward: ColorMatrix)
  {
    /** Every curve can be evaluated, and the inverses are tables, as `inverse()` makes them. */
    predicate Valid()
    {
      match this
      case CT1(g, gi) => g.Valid() && gi.TableCurve? && gi.Valid()
      case CT3(r, g, b, ri, gi, bi, _, _) =>
        r.Valid() && g.Valid() && b.Valid() &&
        ri.TableCurve? && ri.Valid() && gi.TableCurve? && gi.Valid() && bi.TableCurve? && bi.Valid()
    }

    /** The number of components `toPCS` and `fromPCS` read and write. */
    function Arity(): nat
    {
      if CT1? then 1 else 3
    }
  }

  /** What `toPCS` writes for the device value v: the grey curve, or the matrix times the three curve values. */
  function ToPcs(t: ColorTransformer, v: seq<real>, pow: Pow): (r: seq<real>)
    requires t.Valid() && |v| >= t.Arity()
    ensures |r| == t.Arity()
  {
    match t
    case CT1(g, _) => [g.Get(v[0], pow)]
    case CT3(rc, gc, bc, _, _, _, m, _) =>
      var pcs := Apply(m, Vec3(rc.Get(v[0], pow), gc.Get(v[1], pow), bc.Get(v[2], pow)));
      [pcs.x, pcs.y, pcs.z]
  }

  /** What `fromPCS` writes for the PCS value v: the inverse grey curve, or the inverse curves of the inverse
      matrix times v, clamped to [0, 1]. */
  function FromPcs(t: ColorTransformer, v: seq<real>, pow: Pow): (r: seq<real>)
    requires t.Valid() && |v| >= t.Arity()
    ensures |r| == t.Arity()
    ensures t.CT3? ==> forall k :: 0 <= k < 3 ==> 0.0 <= r[k] <= 1.0
  {
    match t
    case CT1(_, gi) => [gi.Get(v[0], pow)]
    case CT3(_, _, _, ri, gi, bi, _, mi) =>
      var linear := Apply(mi, Vec3(v[0], v[1], v[2]));
      [Clamp(ri.Get(linear.x, pow)), Clamp(gi.Get(linear.y, pow)), Clamp(bi.Get(linear.z, pow))]
  }

  /** `fromPCS` undoes `toPCS` for a device value in [0, 1] when the inverse matrix undoes the matrix and each
      inverse curve undoes its curve at that value: the clamping then changes nothing. */
  lemma FromPcsToPcs(t: ColorTransformer, v: seq<real>, pow: Pow)
    requires t.Valid() && t.CT3? && |v| == 3 && Undoes(t.backward, t.forward)
    requires forall k :: 0 <= k < 3 ==> 0.0 <= v[k] <= 1.0
    requires t.redTrcInverse.Get(t.redTrc.Get(v[0], pow), pow) == v[0]
    requires t.greenTrcInverse.Get(t.greenTrc.Get(v[1], pow), pow) == v[1]
    requires t.blueTrcInverse.Get(t.blueTrc.Get(v[2], pow), pow) == v[2]
    ensures FromPcs(t, ToPcs(t, v, pow), pow) == v
  {
    var linear := Vec3(t.redTrc.Get(v[0], pow), t.greenTrc.Get(v[1], pow), t.blueTrc.Get(v[2], pow));
    var pcs := ToPcs(t, v, pow);
    assert Vec3(pcs[0], pcs[1], pcs[2]) == Apply(t.forward, linear);
    UndoesApply(t.backward, t.forward, linear);
  }

  /** `fromPCS` undoes `toPCS` for a device value in [0, 1] when the inverse matrix undoes the matrix and each
      curve is the identity, or a gamma whose value pow undoes, with its inverse as `inverse()` makes it. */
  lemma InvertibleFromPcsToPcs(t: ColorTransformer, v: seq<real>, pow: Pow)
    requires t.Valid() && t.CT3? && |v| == 3 && Undoes(t.backward, t.forward)
    requires forall k :: 0 <= k < 3 ==> 0.0 <= v[k] <= 1.0
    requires InvertiblePair(t.redTrc, t.redTrcInverse, pow) && InvertiblePair(t.greenTrc, t.greenTrcInverse, pow) &&
             InvertiblePair(t.blueTrc, t.blueTrcInverse, pow)
    ensures FromPcs(t, ToPcs(t, v, pow), pow) == v
  {
    SimpleInverseUndoes(t.redTrc.table, t.redTrcInverse.table, v[0], pow);
    SimpleInverseUndoes(t.greenTrc.table, t.greenTrcInverse.table, v[1], pow);
    SimpleInverseUndoes(t.blueTrc.table, t.blueTrcInverse.table, v[2], pow);
    FromPcsToPcs(t, v, pow);
  }

  /** The same for the grey transform, which does not clamp: its inverse curve gives back a grey value in [0, 1]
      when the grey curve is the identity, or a gamma whose value pow undoes, with its inverse as `inverse()`
      makes it. */
  lemma GrayFromPcsToPcs(t: ColorTransformer, v: seq<real>, pow: Pow)
    requires t.Valid() && t.CT1? && |v| == 1 && 0.0 <= v[0] <= 1.0
    requires InvertiblePair(t.grayTrc, t.grayTrcInverse, pow)
    ensures FromPcs(t, ToPcs(t, v, pow), pow) == v
  {
    SimpleInverseUndoes(t.grayTrc.table, t.grayTrcInverse.table, v[0], pow);
  }

  /** The object behind a curve that may be absent. */
  function ObjectOf(curve: Option<ICurve>): set<object>
  {
    if curve.Some? then {curve.value.Object()} else {}
  }

  /** Two curves behind the same object are the same curve, so computing the inverse of one keeps the other
      consistent too. */
  lemma SameObject(a: ICurve, b: ICurve)
    requires a.Object() == b.Object()
    ensures a == b
  {
  }

  /** `new CT1(grayTRC)`: keeps the curve and computes its inverse once; a null curve throws. */
  method NewCT1(grayTrc: Option<ICurve>, pow: Pow) returns (r: Result<ColorTransformer>)
    requires grayTrc.Some? ==> grayTrc.value.Consistent()
    modifies ObjectOf(grayTrc)
    ensures grayTrc.None? ==> r == Err(NullPointer)
    ensures grayTrc.Some? ==> grayTrc.value.Consistent()
    ensures r.Ok? ==> (r.value.Valid() && r.value.CT1? && r.value.grayTrc == grayTrc.value &&
      r.value.grayTrcInverse.TableCurve? && r.value.grayTrcInverse.table == grayTrc.value.Memo())
    ensures grayTrc.Some? && old(grayTrc.value.Memo()) != null ==> r.Ok? && grayTrc.value.Memo() == old(grayTrc.value.Memo())
    ensures r.Err? ==> r == Err(NullPointer) || r == Err(IndexOutOfBounds)
  {
    if grayTrc.None? {
      return Err(NullPointer);
    }
    var inverse :- grayTrc.value.Inverse(pow);
    return Ok(CT1(grayTrc.value, inverse));
  }

  /** The first three components of a column, or the exception reading them throws. */
  function ColumnPrefix(column: Option<seq<real>>): Result<seq<real>>
  {
    match column
    case None => Err(NullPointer)
    case Some(c) => if |c| < 3 then Err(IndexOutOfBounds) else Ok(c[..3])
  }

  /** `trc.inverse()` as the `CT3` constructor calls it: a null curve throws. */
  method InverseOf(trc: Option<ICurve>, pow: Pow) returns (r: Result<ICurve>)
    requires trc.Some? ==> trc.value.Consistent()
    modifies ObjectOf(trc)
    ensures trc.None? ==> r == Err(NullPointer)
    ensures trc.Some? ==> trc.value.Consistent() && (r.Ok? <==> trc.value.Memo() != null)
    ensures r.Ok? ==> trc.Some? && r.value.TableCurve? && r.value.table == trc.value.Memo() && r.value.Valid()
    ensures trc.Some? && old(trc.value.Memo()) != null ==> trc.value.Memo() == old(trc.value.Memo()) && r.Ok?
    ensures r.Err? ==> r == if trc.None? then Err(NullPointer) else Err(IndexOutOfBounds)
  {
    if trc.None? {
      return Err(NullPointer);
    }
    r := trc.value.Inverse(pow);
  }

  /** `new CT3(...)`: takes the nine matrix coefficients from the columns, computes the inverse matrix, then the
      three inverse curves, once each, in that order. A null column or curve throws. */
  method NewCT3(red: Option<seq<real>>, green: Option<seq<real>>, blue: Option<seq<real>>,
                redTrc: Option<ICurve>, greenTrc: Option<ICurve>, blueTrc: Option<ICurve>,
                invert: MatrixInverse, pow: Pow) returns (r: Result<ColorTransformer>)
    requires redTrc.Some? ==> redTrc.value.Consistent()
    requires greenTrc.Some? ==> greenTrc.value.Consistent()
    requires blueTrc.Some? ==> blueTrc.value.Consistent()
    modifies ObjectOf(redTrc) + ObjectOf(greenTrc) + ObjectOf(blueTrc)
    ensures redTrc.Some? ==> redTrc.value.Consistent()
    ensures greenTrc.Some? ==> greenTrc.value.Consistent()
    ensures blueTrc.Some? ==> blueTrc.value.Consistent()
    ensures ColumnPrefix(red).Err? ==> r == Err(ColumnPrefix(red).error)
    ensures ColumnPrefix(red).Ok? && ColumnPrefix(green).Err? ==> r == Err(ColumnPrefix(green).error)
    ensures ColumnPrefix(red).Ok? && ColumnPrefix(green).Ok? && ColumnPrefix(blue).Err? ==>
      r == Err(ColumnPrefix(blue).error)
    ensures ColumnPrefix(red).Ok? && ColumnPrefix(green).Ok? && ColumnPrefix(blue).Ok? && redTrc.None? ==>
      r == Err(NullPointer)
    ensures r.Err? ==> r == Err(NullPointer) || r == Err(IndexOutOfBounds)
    ensures r.Err? && redTrc.Some? && greenTrc.Some? && blueTrc.Some? ==>
      (ColumnPrefix(red).Err? || ColumnPrefix(green).Err? || ColumnPrefix(blue).Err? || r == Err(IndexOutOfBounds))
    ensures r.Ok? ==> (r.value.Valid() && r.value.CT3? &&
      red.Some? && green.Some? && blue.Some? && redTrc.Some? && greenTrc.Some? && blueTrc.Some? &&
      |red.value| >= 3 && |green.value| >= 3 && |blue.value| >= 3 &&
      r.value.forward == FromColumns(red.value, green.value, blue.value) &&
      r.value.backward == invert(r.value.forward) &&
      r.value.redTrc == redTrc.value && r.value.greenTrc == greenTrc.value && r.value.blueTrc == blueTrc.value &&
      r.value.redTrcInverse.TableCurve? && r.value.redTrcInverse.table == redTrc.value.Memo() &&
      r.value.greenTrcInverse.TableCurve? && r.value.greenTrcInverse.table == greenTrc.value.Memo() &&
      r.value.blueTrcInverse.TableCurve? && r.value.blueTrcInverse.table == blueTrc.value.Memo())
  {
    var r3 :- ColumnPrefix(red);
    var g3 :- ColumnPrefix(green);
    var b3 :- ColumnPrefix(blue);
    var forward := FromColumns(r3, g3, b3);
    var backward := invert(forward);
    var inverses :- InvertCurves(redTrc, greenTrc, blueTrc, pow);
    return Ok(CT3(redTrc.value, greenTrc.value, blueTrc.value, inverses.0, inverses.1, inverses.2, forward, backward));
  }

  /** The last three steps of the `CT3` constructor: the red, green and blue inverses, in that order. The same
      curve may be passed more than once; its inverse is then computed once. */
  method InvertCurves(redTrc: Option<ICurve>, greenTrc: Option<ICurve>, blueTrc: Option<ICurve>, pow: Pow)
    returns (r: Result<(ICurve, ICurve, ICurve)>)
    requires redTrc.Some? ==> redTrc.value.Consistent()
    requires greenTrc.Some? ==> greenTrc.value.Consistent()
    requires blueTrc.Some? ==> blueTrc.value.Consistent()
    modifies ObjectOf(redTrc) + ObjectOf(greenTrc) + ObjectOf(blueTrc)
    ensures redTrc.Some? ==> redTrc.value.Consistent()
    ensures greenTrc.Some? ==> greenTrc.value.Consistent()
    ensures blueTrc.Some? ==> blueTrc.value.Consistent()
    ensures redTrc.None? ==> r == Err(NullPointer)
    ensures r.Err? ==> r == Err(NullPointer) || r == Err(IndexOutOfBounds)
    ensures r.Err? && redTrc.Some? && greenTrc.Some? && blueTrc.Some? ==> r == Err(IndexOutOfBounds)
    ensures r.Ok? ==> (redTrc.Some? && greenTrc.Some? && blueTrc.Some? &&
      r.value.0.TableCurve? && r.value.0.Valid() && r.value.0.table == redTrc.value.Memo() &&
      r.value.1.TableCurve? && r.value.1.Valid() && r.value.1.table == greenTrc.value.Memo() &&
      r.value.2.TableCurve? && r.value.2.Valid() && r.value.2.table == blueTrc.value.Memo())
  {
    var redInverse :- InverseOf(redTrc, pow);
    if greenTrc.Some? && greenTrc.value.Object() == redTrc.value.Object() {
      SameObject(greenTrc.value, redTrc.value);
    }
    if blueTrc.Some? && blueTrc.value.Object() == redTrc.value.Object() {
      SameObject(blueTrc.value, redTrc.value);
    }
    var greenInverse :- InverseOf(greenTrc, pow);
    if blueTrc.Some? && blueTrc.value.Object() == greenTrc.value.Object() {
      SameObject(blueTrc.value, greenTrc.value);
    }
    var blueInverse :- InverseOf(blueTrc, pow);
    return Ok((redInverse, greenInverse, blueInverse));
  }

  /** `toPCS(src, dst)`: reads the device components from src, then writes the PCS components into dst one by one
      and returns dst. A short src throws before anything is written; a short dst throws after the components that
      fit. src and dst may be the same array. */
  method ToPcsInto(t: ColorTransformer, src: array<real>, dst: array<real>, pow: Pow) returns (r: Result<array<real>>)
    requires t.Valid()
    modifies dst
    ensures src.Length < t.Arity() ==> r == Err(IndexOutOfBounds) && dst[..] == old(dst[..])
    ensures src.Length >= t.Arity() ==>
      (r.Ok? <==> dst.Length >= t.Arity()) &&
      forall k :: 0 <= k < dst.Length ==> dst[k] == if k < t.Arity() then ToPcs(t, old(src[..]), pow)[k] else old(dst[k])
    ensures r.Ok? ==> r.value == dst
    ensures r.Err? ==> r == Err(IndexOutOfBounds)
  {
    if src.Length < t.Arity() {
      return Err(IndexOutOfBounds);
    }
    var out := ToPcs(t, src[..], pow);
    r := WriteOut(out, dst);
  }

  /** `fromPCS(src, dst)`, in the same way. */
  method FromPcsInto(t: ColorTransformer, src: array<real>, dst: array<real>, pow: Pow) returns (r: Result<array<real>>)
    requires t.Valid()
    modifies dst
    ensures src.Length < t.Arity() ==> r == Err(IndexOutOfBounds) && dst[..] == old(dst[..])
    ensures src.Length >= t.Arity() ==>
      (r.Ok? <==> dst.Length >= t.Arity()) &&
      forall k :: 0 <= k < dst.Length ==> dst[k] == if k < t.Arity() then FromPcs(t, old(src[..]), pow)[k] else old(dst[k])
    ensures r.Ok? ==> r.value == dst
    ensures r.Err? ==> r == Err(IndexOutOfBounds)
  {
    if src.Length < t.Arity() {
      return Err(IndexOutOfBounds);
    }
    var out := FromPcs(t, src[..], pow);
    r := WriteOut(out, dst);
  }

  /** The stores `dst[0] = ...; dst[1] = ...`: each component in turn, up to the end of dst. */
  method WriteOut(out: seq<real>, dst: array<real>) returns (r: Result<array<real>>)
    modifies dst
    ensures r.Ok? <==> dst.Length >= |out|
    ensures forall k :: 0 <= k < dst.Length ==> dst[k] == if k < |out| then out[k] else old(dst[k])
    ensures r.Ok? ==> r.value == dst
    ensures r.Err? ==> r == Err(IndexOutOfBounds)
  {
    for k := 0 to |out|
      invariant k == 0 || k <= dst.Length
      invariant forall j :: 0 <= j < dst.Length ==> dst[j] == if j < k then out[j] else old(dst[j])
    {
      if k >= dst.Length {
        return Err(IndexOutOfBounds);
      }
      dst[k] := out[k];
    }
    return Ok(dst);
  }
}
