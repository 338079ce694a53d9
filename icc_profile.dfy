/** An ICC profile as a whole: the header, the tag table, the colorant and white and black points taken from
    their XYZ tags, the tone curves, and the transform the profile's colour spaces call for. */
module IccProfiles {
  import opened Wrappers
  import opened JavaNum
  import opened Streams
  import opened TagTypes
  import opened Tags
  import opened Curves
  import opened Headers
  import opened TagTables
  import opened ColorTransformers
  import ProfileColorSpaces

  /** The `java.awt.color.ColorSpace` types `getColorTransformer` compares against. */
  const TYPE_XYZ := 0
  const TYPE_LAB := 1
  const TYPE_RGB := 5
  const TYPE_GRAY := 6

  /** `(ICurve) tag`: an absent tag is null, a curve tag is itself, any other tag fails the cast. */
  function CurveOf(tag: Option<Tag>): (r: Result<Option<ICurve>>)
    ensures r.Err? <==> tag.Some? && !tag.value.IsCurve()
    ensures r.Err? ==> r.error == ClassCast
    ensures r.Ok? ==> (r.value.None? <==> tag.None?)
  {
    match tag
    case None => Ok(None)
    case Some(t) => if t.IsCurve() then Ok(Some(t.AsCurve())) else Err(ClassCast)
  }

  /** `((XYZ) tag).xyzNumbers[0]`, skipped for an absent tag: the first XYZ triple. Another kind of tag fails the
      cast, and a tag without numbers fails the index. */
  function XyzOf(tag: Option<Tag>): (r: Result<Option<seq<real>>>)
    ensures r.Ok? ==> (r.value.None? <==> tag.None?)
    ensures tag.Some? && !tag.value.XYZ? ==> r == Err(ClassCast)
    ensures tag.Some? && tag.value.XYZ? && tag.value.xyzNumbers == [] ==> r == Err(IndexOutOfBounds)
    ensures r.Ok? && r.value.Some? ==> tag.Some? && tag.value.XYZ? && r.value.value == tag.value.xyzNumbers[0]
  {
    match tag
    case None => Ok(None)
    case Some(t) =>
      if !t.XYZ? then Err(ClassCast)
      else if t.xyzNumbers == [] then Err(IndexOutOfBounds)
      else Ok(Some(t.xyzNumbers[0]))
  }

  /** What the profile constructor takes from the tag table: four tone curves and five XYZ vectors. */
  datatype Wiring = Wiring(redTrc: Option<ICurve>, greenTrc: Option<ICurve>, blueTrc: Option<ICurve>,
                           grayTrc: Option<ICurve>, redColumn: Option<seq<real>>, greenColumn: Option<seq<real>>,
                           blueColumn: Option<seq<real>>, whitePoint: Option<seq<real>>,
                           blackPoint: Option<seq<real>>)

  /** The constructor's casts, in its order: the red, green, blue and grey curves, then the red, green and blue
      columns and the white and black points. The grey curve is looked up under `grayKey`. */
  function WireWith(entries: seq<Entry>, grayKey: TagType): Result<Wiring>
  {
    var redTrc :- CurveOf(TagOf(entries, RedTrcSig));
    var greenTrc :- CurveOf(TagOf(entries, GreenTrcSig));
    var blueTrc :- CurveOf(TagOf(entries, BlueTrcSig));
    var grayTrc :- CurveOf(TagOf(entries, grayKey));
    var red :- XyzOf(TagOf(entries, RedMatrixColumnSig));
    var green :- XyzOf(TagOf(entries, GreenMatrixColumnSig));
    var blue :- XyzOf(TagOf(entries, BlueMatrixColumnSig));
    var white :- XyzOf(TagOf(entries, MediaWhitePointSig));
    var black :- XyzOf(TagOf(entries, MediaBlackPointSig));
    Ok(Wiring(redTrc, greenTrc, blueTrc, grayTrc, red, green, blue, white, black))
  }

  /** The wiring as the constructor is written: the grey curve is fetched with the blue curve's signature. */
  function WireAsWritten(entries: seq<Entry>): Result<Wiring>
  {
    WireWith(entries, BlueTrcSig)
  }

  /** The wiring with the grey curve fetched under its own signature, as evidently intended. */
  function Wire(entries: seq<Entry>): Result<Wiring>
  {
    WireWith(entries, GrayTrcSig)
  }

  /** As written, the grey curve is always the blue one. A monochrome profile, whose tone curve is tagged
      `grayTRC` and which has no `blueTRC`, therefore ends up without a grey curve, while the wiring that uses
      the grey signature finds its curve; the two succeed and fail together. */
  lemma {:induction false} GrayTrcFromBlueSig(entries: seq<Entry>)
    requires forall i :: 0 <= i < |entries| ==> entries[i].tagType != Some(BlueTrcSig)
    requires TagOf(entries, GrayTrcSig).Some? && TagOf(entries, GrayTrcSig).value.IsCurve()
    ensures WireAsWritten(entries).Ok? <==> Wire(entries).Ok?
    ensures WireAsWritten(entries).Ok? ==> WireAsWritten(entries).value.grayTrc.None?
    ensures Wire(entries).Ok? ==> Wire(entries).value.grayTrc == Some(TagOf(entries, GrayTrcSig).value.AsCurve())
  {
    assert TagOf(entries, BlueTrcSig).None?;
  }

  /** With either key the grey curve is the cast of the tag under that key, and the other eight values do not
      depend on the key at all. */
  lemma {:induction false} WireWithGray(entries: seq<Entry>, key: TagType)
    requires WireWith(entries, key).Ok?
    ensures CurveOf(TagOf(entries, key)) == Ok(WireWith(entries, key).value.grayTrc)
    ensures WireWith(entries, key).value.blueTrc == CurveOf(TagOf(entries, BlueTrcSig)).value
    ensures WireAsWritten(entries).Ok? ==>
      WireAsWritten(entries).value.(grayTrc := WireWith(entries, key).value.grayTrc) == WireWith(entries, key).value
  {
  }

  /** The objects behind the curve tags of the entries. */
  function CurveObjectsOf(entries: seq<Entry>): set<object>
  {
    set i | 0 <= i < |entries| && entries[i].tag.Some? && entries[i].tag.value.IsCurve() ::
      entries[i].tag.value.AsCurve().Object()
  }

  /** Every tag is well shaped, and no curve among them has an inverse yet. */
  predicate Settled(entries: seq<Entry>)
    reads CurveObjectsOf(entries)
  {
    forall i :: 0 <= i < |entries| && entries[i].tag.Some? ==>
      WellShaped(entries[i].tag.value) &&
      (entries[i].tag.value.IsCurve() ==> entries[i].tag.value.AsCurve().Memo() == null)
  }

  /** A curve the wiring takes from a settled table can be evaluated and has no inverse yet. */
  lemma CurveFromSettled(entries: seq<Entry>, t: TagType)
    requires Settled(entries) && CurveOf(TagOf(entries, t)).Ok? && CurveOf(TagOf(entries, t)).value.Some?
    ensures var c := CurveOf(TagOf(entries, t)).value.value; c.Valid() && c.Consistent() && c.Memo() == null
  {
    var i :| 0 <= i < |entries| && entries[i].tagType == Some(t) && TagOf(entries, t) == entries[i].tag;
  }

  /** A vector the wiring takes from a settled table is a triple. */
  lemma XyzFromSettled(entries: seq<Entry>, t: TagType)
    requires Settled(entries) && XyzOf(TagOf(entries, t)).Ok? && XyzOf(TagOf(entries, t)).value.Some?
    ensures |XyzOf(TagOf(entries, t)).value.value| == 3
  {
    var i :| 0 <= i < |entries| && entries[i].tagType == Some(t) && TagOf(entries, t) == entries[i].tag;
  }

  /** The profile description: `getString()` of a textDescription without its last byte, in the platform
      charset, or the first name of a multiLocalizedUnicode tag, whose UTF-16 decoding is not part of this
      model. */
  datatype Description = Latin1Text(text: string) | Utf16Text(encoded: seq<byte>)

  /** What `getProfileDescription` computes from the description tag: "" when there is none, the text of a
      textDescription or the first name of a multiLocalizedUnicode, and null (`None`) for any other kind. An empty
      text or a list of no names throws. */
  function DescriptionOf(tag: Option<Tag>): (r: Result<Option<Description>>)
    ensures tag.None? ==> r == Ok(Some(Latin1Text("")))
    ensures r.Err? <==> tag.Some? && ((tag.value.Desc? && tag.value.bytes == []) ||
                                       (tag.value.MultiLocalizedUnicode? && tag.value.names == []))
    ensures r.Err? ==> r.error == IndexOutOfBounds
    ensures r.Ok? && tag.Some? && tag.value.Desc? ==> (r.value.Some? && r.value.value.Latin1Text? &&
      |r.value.value.text| + 1 == |tag.value.bytes| &&
      forall k :: 0 <= k < |r.value.value.text| ==> r.value.value.text[k] as int == tag.value.bytes[k])
    ensures r.Ok? && tag.Some? && tag.value.MultiLocalizedUnicode? ==> r == Ok(Some(Utf16Text(tag.value.names[0])))
    ensures tag.Some? && !tag.value.Desc? && !tag.value.MultiLocalizedUnicode? ==> r == Ok(None)
  {
    match tag
    case None => Ok(Some(Latin1Text("")))
    case Some(Desc(_, _, _, bytes)) =>
      if bytes == [] then Err(IndexOutOfBounds) else Ok(Some(Latin1Text(Latin1(bytes[..|bytes| - 1]))))
    case Some(MultiLocalizedUnicode(_, _, _, _, _, _, _, _, names)) =>
      if names == [] then Err(IndexOutOfBounds) else Ok(Some(Utf16Text(names[0])))
    case Some(_) => Ok(None)
  }

  /** The two transforms `getColorTransformer` builds. */
  datatype TransformerKind = MatrixTrc | Monochrome

  /** `getColorTransformer`'s choice by the Java colour space types of the data and connection spaces. */
  function KindOf(cs: ProfileColorSpaces.ProfileColorSpaceType, pcs: ProfileColorSpaces.ProfileColorSpaceType):
    Option<TransformerKind>
  {
    var c := ProfileColorSpaces.JavaColorSpace(cs);
    var p := ProfileColorSpaces.JavaColorSpace(pcs);
    if c == TYPE_RGB && (p == TYPE_XYZ || p == TYPE_LAB) then Some(MatrixTrc)
    else if c == TYPE_GRAY then Some(Monochrome)
    else None
  }

  /** The matrix/TRC transform is chosen for RGB data with an XYZ or Lab connection space, the grey transform
      for grey data with any connection space, and none for everything else. */
  lemma KindOfSpaces(cs: ProfileColorSpaces.ProfileColorSpaceType, pcs: ProfileColorSpaces.ProfileColorSpaceType)
    ensures KindOf(cs, pcs) == Some(MatrixTrc) <==>
      cs == ProfileColorSpaces.CsRgb && (pcs == ProfileColorSpaces.CsXyz || pcs == ProfileColorSpaces.CsLab)
    ensures KindOf(cs, pcs) == Some(Monochrome) <==> cs == ProfileColorSpaces.CsGray
  {
  }

  /** `getMatrix()` over the three columns: entry [i][0] is red[i], [i][1] green[i] and [i][2] blue[i]. */
  function MatrixOf(red: seq<real>, green: seq<real>, blue: seq<real>): (m: seq<seq<real>>)
    requires |red| >= 3 && |green| >= 3 && |blue| >= 3
    ensures IsSquare3(m)
    ensures forall i :: 0 <= i < 3 ==> m[i][0] == red[i] && m[i][1] == green[i] && m[i][2] == blue[i]
  {
    Rows(FromColumns(red, green, blue))
  }

  /** The contents of an array that may be null. */
  function Contents(a: array?<real>): (r: Option<seq<real>>)
    reads a
    ensures r.None? <==> a == null
  {
    if a == null then None else Some(a[..])
  }

  /** A fresh array holding the vector, or null. */
  method ToArray(v: Option<seq<real>>) returns (a: array?<real>)
    ensures a == null <==> v.None?
    ensures a != null ==> fresh(a) && a[..] == v.value
  {
    if v.None? {
      return null;
    }
    a := new real[|v.value|](i requires 0 <= i < |v.value| => v.value[i]);
  }

  /** `clone()` of an array that may be null: null throws. */
  method Copy(a: array?<real>) returns (r: Result<array<real>>)
    ensures a == null ==> r == Err(NullPointer)
    ensures a != null ==> r.Ok? && fresh(r.value) && r.value[..] == a[..]
  {
    if a == null {
      return Err(NullPointer);
    }
    var b := new real[a.Length](i requires 0 <= i < a.Length reads a => a[i]);
    return Ok(b);
  }

  /** An `ICCProfile`: the header and tag table it was read from, the vectors and curves the constructor took
      from the table, and the memoised description. */
  class IccProfile {
    const header: IccHeader
    const tagTable: TagTable
    const redColumn: array?<real>
    const greenColumn: array?<real>
    const blueColumn: array?<real>
    const whitePoint: array?<real>
    const blackPoint: array?<real>
    const redTrc: Option<ICurve>
    const greenTrc: Option<ICurve>
    const blueTrc: Option<ICurve>
    const grayTrc: Option<ICurve>
    var description: Option<Description>

    /** The objects behind the tone curves. */
    function CurveObjects(): set<object>
    {
      ObjectOf(redTrc) + ObjectOf(greenTrc) + ObjectOf(blueTrc) + ObjectOf(grayTrc)
    }

    /** The curves and vectors are the ones of the wiring w. The columns are handed out by reference, so this
        holds when the profile is read, not for ever after. */
    predicate WiredFrom(w: Wiring)
      reads this, redColumn, greenColumn, blueColumn, whitePoint, blackPoint
    {
      redTrc == w.redTrc && greenTrc == w.greenTrc && blueTrc == w.blueTrc && grayTrc == w.grayTrc &&
      Contents(redColumn) == w.redColumn && Contents(greenColumn) == w.greenColumn &&
      Contents(blueColumn) == w.blueColumn && Contents(whitePoint) == w.whitePoint &&
      Contents(blackPoint) == w.blackPoint
    }

    /** The header and table are valid, the columns triples, and a memoised description is the one the
        description tag gives. */
    predicate Wired()
      reads this, header, tagTable
    {
      header.Valid() && tagTable.Valid() &&
      (redColumn != null ==> redColumn.Length == 3) && (greenColumn != null ==> greenColumn.Length == 3) &&
      (blueColumn != null ==> blueColumn.Length == 3) &&
      (description.Some? ==> DescriptionOf(TagOf(tagTable.entries, ProfileDescriptionSig)) == Ok(description))
    }

    /** Each curve can be evaluated and is ready to be inverted. */
    predicate CurvesReady()
      reads this, CurveObjects()
    {
      (redTrc.Some? ==> redTrc.value.Valid() && redTrc.value.Consistent()) &&
      (greenTrc.Some? ==> greenTrc.value.Valid() && greenTrc.value.Consistent()) &&
      (blueTrc.Some? ==> blueTrc.value.Valid() && blueTrc.value.Consistent()) &&
      (grayTrc.Some? ==> grayTrc.value.Valid() && grayTrc.value.Consistent())
    }

    /** The curves are neither the profile, its header nor its table, so computing their inverses leaves those
        alone. */
    lemma CurvesApart()
      ensures this !in CurveObjects() && header !in CurveObjects() && tagTable !in CurveObjects()
    {
    }

    /** The profile's invariant. */
    predicate Valid()
      reads this, header, tagTable, CurveObjects()
    {
      Wired() && CurvesReady()
    }

    /** The profile over the header and table with the curves and vectors of w, each vector in a new array. */
    constructor (header: IccHeader, tagTable: TagTable, w: Wiring)
      ensures this.header == header && this.tagTable == tagTable && WiredFrom(w) && description.None?
      ensures redColumn != null ==> fresh(redColumn)
      ensures greenColumn != null ==> fresh(greenColumn)
      ensures blueColumn != null ==> fresh(blueColumn)
    {
      this.header := header;
      this.tagTable := tagTable;
      var red := ToArray(w.redColumn);
      var green := ToArray(w.greenColumn);
      var blue := ToArray(w.blueColumn);
      var white := ToArray(w.whitePoint);
      var black := ToArray(w.blackPoint);
      redColumn, greenColumn, blueColumn, whitePoint, blackPoint := red, green, blue, white, black;
      redTrc, greenTrc, blueTrc, grayTrc := w.redTrc, w.greenTrc, w.blueTrc, w.grayTrc;
      description := None;
    }

    /** `getTag(tagType)`: the table's tag of that type. */
    function GetTag(t: TagType): (r: Option<Tag>)
      reads this, tagTable
      requires tagTable.Valid()
      ensures r == TagOf(tagTable.entries, t)
    {
      tagTable.GetTag(t)
    }

    /** `getNumComponents()`: the channel count of the data colour space. */
    function GetNumComponents(): (r: int)
      ensures 1 <= r <= 15
      ensures r == ProfileColorSpaces.NumComponents(header.fields.start.colorSpaceType)
    {
      ProfileColorSpaces.NumComponents(header.fields.start.colorSpaceType)
    }

    /** `getMatrix()`: a new 3x3 array whose columns are the red, green and blue columns; a missing column
        throws. */
    method GetMatrix() returns (r: Result<array2<real>>)
      requires Valid()
      ensures r.Err? <==> redColumn == null || greenColumn == null || blueColumn == null
      ensures r.Err? ==> r.error == NullPointer
      ensures r.Ok? ==> (fresh(r.value) && r.value.Length0 == 3 && r.value.Length1 == 3 &&
        forall i, j :: 0 <= i < 3 && 0 <= j < 3 ==>
          r.value[i, j] == MatrixOf(redColumn[..], greenColumn[..], blueColumn[..])[i][j])
    {
      if redColumn == null || greenColumn == null || blueColumn == null {
        return Err(NullPointer);
      }
      ghost var expected := MatrixOf(redColumn[..], greenColumn[..], blueColumn[..]);
      var m := new real[3, 3];
      m[0, 0], m[1, 0], m[2, 0] := redColumn[0], redColumn[1], redColumn[2];
      m[0, 1], m[1, 1], m[2, 1] := greenColumn[0], greenColumn[1], greenColumn[2];
      m[0, 2], m[1, 2], m[2, 2] := blueColumn[0], blueColumn[1], blueColumn[2];
      assert redColumn[..] == old(redColumn[..]) && greenColumn[..] == old(greenColumn[..]) &&
             blueColumn[..] == old(blueColumn[..]);
      assert forall i, j :: 0 <= i < 3 && 0 <= j < 3 ==> m[i, j] == expected[i][j];
      return Ok(m);
    }

    /** `getRedColumn()`: the profile's own array, not a copy. */
    method GetRedColumn() returns (r: array?<real>)
      ensures r == redColumn
    {
      return redColumn;
    }

    /** `getGreenColumn()`: the profile's own array, not a copy. */
    method GetGreenColumn() returns (r: array?<real>)
      ensures r == greenColumn
    {
      return greenColumn;
    }

    /** `getBlueColumn()`: the profile's own array, not a copy. */
    method GetBlueColumn() returns (r: array?<real>)
      ensures r == blueColumn
    {
      return blueColumn;
    }

    /** `getWhitePoint()`: a new copy, so the caller cannot change the profile; null throws. */
    method GetWhitePoint() returns (r: Result<array<real>>)
      ensures whitePoint == null ==> r == Err(NullPointer)
      ensures whitePoint != null ==> r.Ok? && fresh(r.value) && r.value[..] == whitePoint[..]
    {
      r := Copy(whitePoint);
    }

    /** `getBlackPoint()`: a new copy, so the caller cannot change the profile; null throws. */
    method GetBlackPoint() returns (r: Result<array<real>>)
      ensures blackPoint == null ==> r == Err(NullPointer)
      ensures blackPoint != null ==> r.Ok? && fresh(r.value) && r.value[..] == blackPoint[..]
    {
      r := Copy(blackPoint);
    }

    /** `getPCS_Illuminant()`: a new copy of the header's illuminant. */
    method GetPcsIlluminant() returns (r: array<real>)
      ensures fresh(r) && r[..] == header.fields.middle.pcsIlluminant
    {
      r := ToArray(Some(header.fields.middle.pcsIlluminant));
    }

    /** `getProfileDescription()`: computed from the description tag on first use and kept; a kind of tag it
        cannot read leaves it null, to be computed again next time. */
    method GetProfileDescription() returns (r: Result<Option<Description>>)
      requires Valid()
      modifies this
      ensures Valid()
      ensures r == DescriptionOf(TagOf(tagTable.entries, ProfileDescriptionSig))
      ensures description == if r.Ok? then r.value else old(description)
    {
      if description.None? {
        var tag := tagTable.GetTag(ProfileDescriptionSig);
        var d :- DescriptionOf(tag);
        description := d;
      }
      return Ok(description);
    }

    /** `getColorTransformer()`: the matrix/TRC transform over the three columns and curves, the grey transform
        over the grey curve, or null, by the data and connection spaces. Building one computes the missing
        curve inverses and keeps them in the curves. */
    method GetColorTransformer(invert: MatrixInverse, pow: Pow) returns (r: Result<Option<ColorTransformer>>)
      requires Valid()
      modifies CurveObjects()
      ensures Valid()
      ensures var k := KindOf(header.fields.start.colorSpaceType, header.fields.start.profileConnectionSpace);
        (k.None? <==> r == Ok(None)) &&
        (k == Some(Monochrome) && grayTrc.None? ==> r == Err(NullPointer)) &&
        (k == Some(MatrixTrc) && (redColumn == null || greenColumn == null || blueColumn == null) ==>
          r == Err(NullPointer)) &&
        (r.Err? ==> r == Err(NullPointer) || r == Err(IndexOutOfBounds)) &&
        (r.Ok? && k == Some(Monochrome) ==>
          r.value.Some? && r.value.value.Valid() && r.value.value.CT1? && grayTrc == Some(r.value.value.grayTrc)) &&
        (r.Ok? && k == Some(MatrixTrc) ==>
          r.value.Some? && r.value.value.Valid() && r.value.value.CT3? &&
          redColumn != null && greenColumn != null && blueColumn != null &&
          r.value.value.forward == FromColumns(redColumn[..], greenColumn[..], blueColumn[..]) &&
          r.value.value.backward == invert(r.value.value.forward) &&
          redTrc == Some(r.value.value.redTrc) && greenTrc == Some(r.value.value.greenTrc) &&
          blueTrc == Some(r.value.value.blueTrc))
    {
      var kind := KindOf(header.fields.start.colorSpaceType, header.fields.start.profileConnectionSpace);
      if kind == Some(MatrixTrc) {
        var t :- BuildMatrixTrc(invert, pow);
        r := Ok(Some(t));
      } else if kind == Some(Monochrome) {
        var t :- BuildMonochrome(pow);
        r := Ok(Some(t));
      } else {
        r := Ok(None);
      }
    }

    /** `new CT3(redColumn, greenColumn, blueColumn, redTRC, greenTRC, blueTRC)`. */
    method BuildMatrixTrc(invert: MatrixInverse, pow: Pow) returns (r: Result<ColorTransformer>)
      requires Valid()
      modifies CurveObjects()
      ensures Valid()
      ensures (redColumn == null || greenColumn == null || blueColumn == null) ==> r == Err(NullPointer)
      ensures r.Err? ==> r == Err(NullPointer) || r == Err(IndexOutOfBounds)
      ensures r.Ok? ==> (r.value.Valid() && r.value.CT3? &&
        redColumn != null && greenColumn != null && blueColumn != null &&
        r.value.forward == FromColumns(redColumn[..], greenColumn[..], blueColumn[..]) &&
        r.value.backward == invert(r.value.forward) &&
        redTrc == Some(r.value.redTrc) && greenTrc == Some(r.value.greenTrc) && blueTrc == Some(r.value.blueTrc))
    {
      CurvesApart();
      r := NewCT3(Contents(redColumn), Contents(greenColumn), Contents(blueColumn), redTrc, greenTrc, blueTrc,
                  invert, pow);
      if grayTrc.Some? {
        AliasedStaysReady(grayTrc.value, redTrc);
        AliasedStaysReady(grayTrc.value, greenTrc);
        AliasedStaysReady(grayTrc.value, blueTrc);
      }
    }

    /** `new CT1(grayTRC)`. */
    method BuildMonochrome(pow: Pow) returns (r: Result<ColorTransformer>)
      requires Valid()
      modifies CurveObjects()
      ensures Valid()
      ensures grayTrc.None? ==> r == Err(NullPointer)
      ensures r.Err? ==> r == Err(NullPointer) || r == Err(IndexOutOfBounds)
      ensures r.Ok? ==> r.value.Valid() && r.value.CT1? && grayTrc == Some(r.value.grayTrc)
    {
      CurvesApart();
      r := NewCT1(grayTrc, pow);
      if redTrc.Some? {
        AliasedStaysReady(redTrc.value, grayTrc);
      }
      if greenTrc.Some? {
        AliasedStaysReady(greenTrc.value, grayTrc);
      }
      if blueTrc.Some? {
        AliasedStaysReady(blueTrc.value, grayTrc);
      }
    }
  }

  /** A curve behind the same object as a consistent curve is that curve, so it is consistent too. */
  lemma AliasedStaysReady(c: ICurve, other: Option<ICurve>)
    requires other.Some? ==> other.value.Consistent()
    ensures other.Some? && c.Object() == other.value.Object() ==> c.Consistent()
  {
    if other.Some? && c.Object() == other.value.Object() {
      SameObject(c, other.value);
    }
  }

  /** The header fields at the start of the profile d. */
  predicate FieldsFrom(fields: HeaderFields, d: seq<byte>)
  {
    80 <= |d| && ColorSpacesKnown(d, 0) && fields == FieldsAt(d, 0)
  }

  /** The header as read from the start of the profile d. */
  predicate HeaderFrom(header: IccHeader, d: seq<byte>)
    reads header
  {
    header.Valid() && FieldsFrom(header.fields, d)
  }

  /** The tag table as read right after the header of d, before any tag is decoded. */
  predicate DirectoryFrom(table: TagTable, d: seq<byte>)
    reads table
  {
    132 <= |d| && var n := S32At(d, 128);
    table.Valid() && 0 <= n && 132 + 12 * n <= |d| && table.tagCount == n && table.entries == DirectoryAt(d, 132, n)
  }

  /** The tag table once `readTags` has run: each entry holds what decoding its window left in it, and every tag
      is well shaped with no curve inverted yet. */
  predicate DecodedFrom(table: TagTable, d: seq<byte>)
    reads table, CurveObjectsOf(table.entries)
  {
    132 <= |d| && var n := S32At(d, 128);
    table.Valid() && 0 <= n && 132 + 12 * n <= |d| && table.tagCount == n && |table.entries| == n &&
    (forall i :: 0 <= i < n ==> Decoded(d, DirectoryAt(d, 132, n)[i], table.entries[i])) &&
    Settled(table.entries)
  }

  /** The header and the tag table as read from d, before any tag is decoded. */
  predicate ReadFrom(header: IccHeader, table: TagTable, d: seq<byte>)
    reads header, table
  {
    HeaderFrom(header, d) && DirectoryFrom(table, d)
  }

  /** The header and the tag table once `readTags` has run. */
  predicate TagsFrom(header: IccHeader, table: TagTable, d: seq<byte>)
    reads header, table, CurveObjectsOf(table.entries)
  {
    HeaderFrom(header, d) && DecodedFrom(table, d)
  }

  /** A profile read from d: its header holds the fields at the start, its table has the directory's entries
      with each tag decoded from its window, and the curves and vectors are the ones `WireAsWritten` takes from
      them. */
  predicate LoadedFrom(p: IccProfile, d: seq<byte>)
    reads p, p.header, p.tagTable, p.redColumn, p.greenColumn, p.blueColumn, p.whitePoint, p.blackPoint
  {
    132 <= |d| && ColorSpacesKnown(d, 0) && var n := S32At(d, 128);
    p.header.fields == FieldsAt(d, 0) && p.tagTable.tagCount == n && |p.tagTable.entries| == n &&
    0 <= n && 132 + 12 * n <= |d| &&
    (forall i :: 0 <= i < n ==> Decoded(d, DirectoryAt(d, 132, n)[i], p.tagTable.entries[i])) &&
    WireAsWritten(p.tagTable.entries).Ok? && p.WiredFrom(WireAsWritten(p.tagTable.entries).value)
  }

  /** The first half of `new ICCProfile(iopb)`: the header, then the tag table right after it. */
  method ReadHeaderAndTable(d: seq<byte>) returns (r: Result<(IccHeader, TagTable)>)
    ensures r.Ok? ==> 132 <= |d| && ColorSpacesKnown(d, 0)
    ensures |d| < 80 ==> r.Err?
    ensures 20 <= |d| && !DataSpaceKnown(d, 0) ==> r == Err(IllegalArgument)
    ensures 24 <= |d| && !ColorSpacesKnown(d, 0) ==> r == Err(IllegalArgument)
    ensures r.Ok? ==> fresh(r.value.0) && fresh(r.value.1) && ReadFrom(r.value.0, r.value.1, d)
  {
    var input := new ByteStream(d, 0);
    var header :- ReadHeaderAtStart(input);
    assert header as object != input as object;
    var table :- ReadTableAfterHeader(input);
    assert HeaderFrom(header, d) && DirectoryFrom(table, d);
    return Ok((header, table));
  }

  /** The tag table right after the header; a stream that ended early has nothing more to read. */
  method ReadTableAfterHeader(input: ByteStream) returns (r: Result<TagTable>)
    requires input.At(128)
    modifies input
    ensures r.Ok? ==> fresh(r.value) && DirectoryFrom(r.value, input.data)
  {
    r := ReadTable(input);
  }

  /** The header at the start of the stream; afterwards the stream is past it. */
  method ReadHeaderAtStart(input: ByteStream) returns (r: Result<IccHeader>)
    requires input.pos == 0
    modifies input
    ensures r.Ok? <==> 80 <= |input.data| && ColorSpacesKnown(input.data, 0)
    ensures 20 <= |input.data| && !DataSpaceKnown(input.data, 0) ==> r == Err(IllegalArgument)
    ensures 24 <= |input.data| && !ColorSpacesKnown(input.data, 0) ==> r == Err(IllegalArgument)
    ensures r.Ok? ==> fresh(r.value) && HeaderFrom(r.value, input.data) && input.At(128)
  {
    r := ReadHeader(input);
  }

  /** `new ICCProfile(iopb)`: the header and the tag table from the start of the profile, then every tag from
      its window of the profile, then the curves and vectors. */
  method ReadProfile(d: seq<byte>) returns (r: Result<IccProfile>)
    ensures r.Ok? ==> 132 <= |d| && ColorSpacesKnown(d, 0)
    ensures |d| < 80 ==> r.Err?
    ensures 20 <= |d| && !DataSpaceKnown(d, 0) ==> r == Err(IllegalArgument)
    ensures 24 <= |d| && !ColorSpacesKnown(d, 0) ==> r == Err(IllegalArgument)
    ensures r.Ok? ==> (fresh(r.value) && fresh(r.value.header) && fresh(r.value.tagTable) && r.value.Valid() &&
                       LoadedFrom(r.value, d) && r.value.description.None?)
  {
    var parts :- ReadHeaderAndTable(d);
    var done :- DecodeTags(parts.0, parts.1, d);
    r := WireProfile(parts.0, parts.1, d);
  }

  /** The constructor after `readTags`: the curves and vectors looked up in the table, the grey curve under the
      blue curve's signature as the constructor is written. */
  method WireProfile(header: IccHeader, table: TagTable, d: seq<byte>) returns (r: Result<IccProfile>)
    requires TagsFrom(header, table, d)
    ensures r.Ok? ==> (fresh(r.value) && r.value.header == header && r.value.tagTable == table &&
                       r.value.Valid() && LoadedFrom(r.value, d) && r.value.description.None?)
  {
    var w :- WireAsWritten(table.entries);
    WireSettled(table.entries);
    r := Assemble(header, table, w);
  }

  /** The last step of the constructor: the vectors become arrays of the new profile. */
  method Assemble(header: IccHeader, table: TagTable, w: Wiring) returns (r: Result<IccProfile>)
    requires header.Valid() && table.Valid()
    requires w.redColumn.Some? ==> |w.redColumn.value| == 3
    requires w.greenColumn.Some? ==> |w.greenColumn.value| == 3
    requires w.blueColumn.Some? ==> |w.blueColumn.value| == 3
    requires w.redTrc.Some? ==> w.redTrc.value.Valid() && w.redTrc.value.Consistent()
    requires w.greenTrc.Some? ==> w.greenTrc.value.Valid() && w.greenTrc.value.Consistent()
    requires w.blueTrc.Some? ==> w.blueTrc.value.Valid() && w.blueTrc.value.Consistent()
    requires w.grayTrc.Some? ==> w.grayTrc.value.Valid() && w.grayTrc.value.Consistent()
    ensures r.Ok? && fresh(r.value) && r.value.header == header && r.value.tagTable == table
    ensures r.value.Valid() && r.value.WiredFrom(w) && r.value.description.None?
  {
    var profile := new IccProfile(header, table, w);
    return Ok(profile);
  }

  /** `tagTable.readTags(rai)` on a freshly read table: afterwards each entry holds what decoding its window left
      in it, every tag is well shaped and no curve has an inverse yet. */
  method DecodeTags(header: IccHeader, table: TagTable, d: seq<byte>) returns (r: Result<()>)
    requires ReadFrom(header, table, d)
    modifies table
    ensures r.Ok? ==> TagsFrom(header, table, d)
  {
    assert header as object != table as object;
    r := DecodeTable(table, d);
  }

  /** `readTags` over the directory just read: each entry decoded from its window. */
  method DecodeTable(table: TagTable, d: seq<byte>) returns (r: Result<()>)
    requires DirectoryFrom(table, d)
    modifies table
    ensures r.Ok? ==> DecodedFrom(table, d)
  {
    DirectoryUndecoded(d, 132, table.tagCount);
    ghost var directory := table.entries;
    r := table.ReadTags(d);
    if r.Ok? {
      forall i | 0 <= i < |table.entries| && table.entries[i].tag.Some?
        ensures WellShaped(table.entries[i].tag.value)
        ensures table.entries[i].tag.value.IsCurve() ==> table.entries[i].tag.value.AsCurve().Memo() == null
      {
        DecodedShaped(d, directory[i], table.entries[i]);
      }
    }
  }

  /** A tag that decoding put into an empty entry is well shaped. */
  lemma DecodedShaped(d: seq<byte>, before: Entry, after: Entry)
    requires Decoded(d, before, after) && before.tag.None? && after.tag.Some?
    ensures WellShaped(after.tag.value)
  {
  }

  /** The wiring as written of a settled table gives triples and curves ready to be inverted. */
  lemma WireSettled(entries: seq<Entry>)
    requires Settled(entries) && WireAsWritten(entries).Ok?
    ensures var w := WireAsWritten(entries).value;
      (w.redColumn.Some? ==> |w.redColumn.value| == 3) && (w.greenColumn.Some? ==> |w.greenColumn.value| == 3) &&
      (w.blueColumn.Some? ==> |w.blueColumn.value| == 3) &&
      (w.redTrc.Some? ==> w.redTrc.value.Valid() && w.redTrc.value.Consistent()) &&
      (w.greenTrc.Some? ==> w.greenTrc.value.Valid() && w.greenTrc.value.Consistent()) &&
      (w.blueTrc.Some? ==> w.blueTrc.value.Valid() && w.blueTrc.value.Consistent()) &&
      (w.grayTrc.Some? ==> w.grayTrc.value.Valid() && w.grayTrc.value.Consistent())
  {
    var w := WireAsWritten(entries).value;
    if w.redColumn.Some? { XyzFromSettled(entries, RedMatrixColumnSig); }
    if w.greenColumn.Some? { XyzFromSettled(entries, GreenMatrixColumnSig); }
    if w.blueColumn.Some? { XyzFromSettled(entries, BlueMatrixColumnSig); }
    if w.redTrc.Some? { CurveFromSettled(entries, RedTrcSig); }
    if w.greenTrc.Some? { CurveFromSettled(entries, GreenTrcSig); }
    if w.blueTrc.Some? { CurveFromSettled(entries, BlueTrcSig); }
    if w.grayTrc.Some? { CurveFromSettled(entries, BlueTrcSig); }
  }
}
