/** The 128-byte profile header of section 7.2 of ICC.1:2010, as `ICC_Header` reads it. */
module Headers {
  import opened Wrappers
  import opened JavaNum
  import opened Streams
  import opened SignatureUtils
  import opened DateTimes
  import ProfileClasses
  import ProfileColorSpaces
  import RenderingIntents

  /** `new String(bytes)`: one character per byte in the platform charset, taken here to be ISO-8859-1. */
  function Latin1(b: seq<byte>): (s: string)
    ensures |s| == |b| && forall i :: 0 <= i < |b| ==> s[i] as int == b[i]
  {
    seq(|b|, i requires 0 <= i < |b| => ByteToChar(b[i]))
  }

  /** The first 24 bytes of the header: three numbers, then the class and the two colour spaces, looked up
      by signature. */
  datatype HeaderStart = HeaderStart(
    profileSize: int, preferredCmmType: int, profileVersion: int,
    profileClass: Option<ProfileClasses.ProfileClass>,
    colorSpaceType: ProfileColorSpaces.ProfileColorSpaceType,
    profileConnectionSpace: ProfileColorSpaces.ProfileColorSpaceType)

  /** Bytes 24 to 80 of the header. The profile signature, primary platform and device attributes are kept as
      their raw numbers. */
  datatype HeaderMiddle = HeaderMiddle(
    creationDate: DateTimeNumber, signature: int, primaryPlatform: int, profileFlags: int32,
    deviceManufacturer: seq<byte>, deviceModel: int, deviceAttributes: int64,
    renderingIntent: RenderingIntents.RenderingIntent, pcsIlluminant: seq<real>)

  /** The header fields `ICC_Header` assigns in its constructor and never changes afterwards. */
  datatype HeaderFields = HeaderFields(
    start: HeaderStart, middle: HeaderMiddle,
    profileCreator: seq<byte>, profileId: seq<byte>, reserved: seq<byte>)

  /** Both colour space signatures of the header at p name a known colour space. */
  predicate ColorSpacesKnown(d: seq<byte>, p: int)
    requires 0 <= p && p + 24 <= |d|
  {
    ProfileColorSpaces.Get(U32At(d, p + 16)).Ok? && ProfileColorSpaces.Get(U32At(d, p + 20)).Ok?
  }

  /** The data colour space signature of the header at p names a known colour space. */
  predicate DataSpaceKnown(d: seq<byte>, p: int)
    requires 0 <= p && p + 20 <= |d|
  {
    ProfileColorSpaces.Get(U32At(d, p + 16)).Ok?
  }

  /** The first 24 bytes of the header at p. */
  function StartAt(d: seq<byte>, p: int): HeaderStart
    requires 0 <= p && p + 24 <= |d| && ColorSpacesKnown(d, p)
  {
    HeaderStart(U32At(d, p), U32At(d, p + 4), U32At(d, p + 8), ProfileClasses.Get(U32At(d, p + 12)),
                ProfileColorSpaces.Get(U32At(d, p + 16)).value, ProfileColorSpaces.Get(U32At(d, p + 20)).value)
  }

  /** The PCS illuminant: each raw unsigned number over 65535. */
  function Illuminant(raw: seq<int>): (r: seq<real>)
    ensures |r| == |raw| && forall i :: 0 <= i < |raw| ==> r[i] * 65535.0 == raw[i] as real
  {
    seq(|raw|, i requires 0 <= i < |raw| => raw[i] as real / 65535.0)
  }

  /** Bytes 24 to 80 of the header, found at q. */
  function MiddleAt(d: seq<byte>, q: int): (m: HeaderMiddle)
    requires 0 <= q && q + 56 <= |d|
    ensures |m.deviceManufacturer| == 4
    ensures m.renderingIntent == RenderingIntents.Unknown <==> S32At(d, q + 40) < 0 || 3 < S32At(d, q + 40)
  {
    HeaderMiddle(Decode(d[q..q + 12]), U32At(d, q + 12), U32At(d, q + 16), S32At(d, q + 20), d[q + 24..q + 28],
                 U32At(d, q + 28), S64(BE(d[q + 32..q + 40])), RenderingIntents.GetRenderingIntentType(S32At(d, q + 40)),
                 Illuminant(U32sAt(d, q + 44, 3)))
  }

  /** The header at p: numbers at their fixed offsets, and the last three byte fields as `read(byte[])` fills
      them. */
  function FieldsAt(d: seq<byte>, p: int): (h: HeaderFields)
    requires 0 <= p && p + 80 <= |d| && ColorSpacesKnown(d, p)
    ensures |h.middle.deviceManufacturer| == 4 && |h.profileCreator| == 4 && |h.profileId| == 16 && |h.reserved| == 28
  {
    HeaderFields(StartAt(d, p), MiddleAt(d, p + 24), Filled(d, p + 80, 4), Filled(d, p + 84, 16), Filled(d, p + 100, 28))
  }

  /** The illuminant: three values, each the raw unsigned number at its offset over 65535. */
  lemma MiddleAtIlluminant(d: seq<byte>, q: int)
    requires 0 <= q && q + 56 <= |d|
    ensures var m := MiddleAt(d, q);
      |m.pcsIlluminant| == 3 &&
      forall i :: 0 <= i < 3 ==> m.pcsIlluminant[i] * 65535.0 == U32At(d, q + 44 + 4 * i) as real
  {
    var raw := U32sAt(d, q + 44, 3);
    forall i | 0 <= i < 3
      ensures raw[i] == U32At(d, q + 44 + 4 * i)
    {
    }
  }

  /** The class is null exactly when the class signature is none of the seven values. */
  lemma StartAtClass(d: seq<byte>, p: int)
    requires 0 <= p && p + 24 <= |d| && ColorSpacesKnown(d, p)
    ensures StartAt(d, p).profileClass.None? <==> forall pc :: U32(U32At(d, p + 12)) != ProfileClasses.Value(pc)
  {
    var c := ProfileClasses.Get(U32At(d, p + 12));
    assert StartAt(d, p).profileClass == c;
    if c.None? {
      forall pc | true
        ensures U32(U32At(d, p + 12)) != ProfileClasses.Value(pc)
      {
        ProfileClasses.GetIffValue(U32At(d, p + 12), pc);
      }
    } else {
      ProfileClasses.GetIffValue(U32At(d, p + 12), c.value);
    }
  }

  /** An `ICC_Header`: the fields read once by the constructor, and the three strings `ICCProfile` builds from
      the byte fields on first use and keeps. */
  class IccHeader {
    const fields: HeaderFields
    var deviceManufacturer: Option<string>
    var profileCreator: Option<string>
    var profileId: Option<string>

    constructor (fields: HeaderFields)
      ensures this.fields == fields
      ensures deviceManufacturer.None? && profileCreator.None? && profileId.None?
    {
      this.fields := fields;
      deviceManufacturer, profileCreator, profileId := None, None, None;
    }

    /** The memoised strings, once built, are the byte fields decoded. */
    predicate Valid()
      reads this
    {
      (deviceManufacturer.Some? ==> deviceManufacturer.value == Latin1(fields.middle.deviceManufacturer)) &&
      (profileCreator.Some? ==> profileCreator.value == Latin1(fields.profileCreator)) &&
      (profileId.Some? ==> profileId.value == Latin1(fields.profileId))
    }

    /** `ICCProfile.getDeviceManufacturer`: the manufacturer bytes as a string, built on first use. */
    method GetDeviceManufacturer() returns (s: string)
      requires Valid()
      modifies this
      ensures Valid() && s == Latin1(fields.middle.deviceManufacturer) && deviceManufacturer == Some(s)
      ensures profileCreator == old(profileCreator) && profileId == old(profileId)
    {
      if deviceManufacturer.None? {
        deviceManufacturer := Some(Latin1(fields.middle.deviceManufacturer));
      }
      s := deviceManufacturer.value;
    }

    /** `ICCProfile.getProfileCreator`: the creator bytes as a string, built on first use. */
    method GetProfileCreator() returns (s: string)
      requires Valid()
      modifies this
      ensures Valid() && s == Latin1(fields.profileCreator) && profileCreator == Some(s)
      ensures deviceManufacturer == old(deviceManufacturer) && profileId == old(profileId)
    {
      if profileCreator.None? {
        profileCreator := Some(Latin1(fields.profileCreator));
      }
      s := profileCreator.value;
    }

    /** `ICCProfile.getProfileID`: the profile ID bytes as a string, built on first use. */
    method GetProfileId() returns (s: string)
      requires Valid()
      modifies this
      ensures Valid() && s == Latin1(fields.profileId) && profileId == Some(s)
      ensures deviceManufacturer == old(deviceManufacturer) && profileCreator == old(profileCreator)
    {
      if profileId.None? {
        profileId := Some(Latin1(fields.profileId));
      }
      s := profileId.value;
    }
  }

  /** The first 24 bytes: three numbers, then the class and the two colour spaces looked up by signature. The
      data colour space is looked up before the connection space is read, so an unknown one throws even when
      the header ends inside the connection space field. */
  method ReadHeaderStart(input: ByteStream) returns (r: Result<HeaderStart>)
    modifies input
    ensures r.Ok? <==> old(input.CanRead(24)) && ColorSpacesKnown(input.data, old(input.pos))
    ensures r == Err(IllegalArgument) <==>
      old(input.CanRead(20)) && (!DataSpaceKnown(input.data, old(input.pos)) ||
                                 (old(input.CanRead(24)) && !ColorSpacesKnown(input.data, old(input.pos))))
    ensures r.Ok? ==> input.pos == old(input.pos) + 24 && r.value == StartAt(input.data, old(input.pos))
  {
    var profileSize :- input.ReadU32BE();
    var cmmType :- input.ReadU32BE();
    var version :- input.ReadU32BE();
    var classSignature :- input.ReadU32BE();
    var profileClass := ProfileClasses.Get(classSignature);
    var spaceSignature :- input.ReadU32BE();
    var colorSpace :- ProfileColorSpaces.Get(spaceSignature);
    var pcsSignature :- input.ReadU32BE();
    var pcs :- ProfileColorSpaces.Get(pcsSignature);
    return Ok(HeaderStart(profileSize, cmmType, version, profileClass, colorSpace, pcs));
  }

  /** The creation date, signature, platform and flags. */
  method ReadDateAndIds(input: ByteStream) returns (r: Result<(DateTimeNumber, int, int, int32)>)
    modifies input
    ensures r.Ok? <==> old(input.CanRead(24))
    ensures r.Ok? ==> var d, q := input.data, old(input.pos);
      input.pos == q + 24 && r.value == (Decode(d[q..q + 12]), U32At(d, q + 12), U32At(d, q + 16), S32At(d, q + 20))
  {
    var date :- Read(input);
    var signature :- input.ReadU32BE();
    var platform :- input.ReadU32BE();
    var flags :- input.ReadS32BE();
    return Ok((date, signature, platform, flags));
  }

  /** The manufacturer, model, attributes, rendering intent and illuminant. */
  method ReadDevice(input: ByteStream)
    returns (r: Result<(seq<byte>, int, int64, RenderingIntents.RenderingIntent, seq<real>)>)
    requires 0 <= input.pos
    modifies input
    ensures r.Ok? <==> old(input.CanRead(32))
    ensures r.Ok? ==> var d, q := input.data, old(input.pos);
      input.pos == q + 32 &&
      r.value == (d[q..q + 4], U32At(d, q + 4), S64(BE(d[q + 8..q + 16])),
                  RenderingIntents.GetRenderingIntentType(S32At(d, q + 16)), Illuminant(U32sAt(d, q + 20, 3)))
  {
    ghost var q := input.pos;
    // the position is not negative, so `read(byte[])` cannot fail
    var b := input.ReadAvailable(4);
    var manufacturer := b.value;
    var model :- input.ReadU32BE();
    var attributes :- input.ReadS64BE();
    var intent :- input.ReadS32BE();
    var raw := input.ReadU32s(3);
    if raw.Err? {
      return Err(raw.error);
    }
    var illuminant := Illuminant(raw.value);
    assert manufacturer == input.data[q..q + 4];
    return Ok((manufacturer, model, attributes, RenderingIntents.GetRenderingIntentType(intent), illuminant));
  }

  /** Bytes 24 to 80: the creation date, signature, platform, flags, manufacturer, model, attributes, rendering
      intent and illuminant. */
  method ReadHeaderMiddle(input: ByteStream) returns (r: Result<HeaderMiddle>)
    requires 0 <= input.pos
    modifies input
    ensures r.Ok? <==> old(input.CanRead(56))
    ensures r.Ok? ==> input.pos == old(input.pos) + 56 && r.value == MiddleAt(input.data, old(input.pos))
  {
    ghost var q := input.pos;
    var ids :- ReadDateAndIds(input);
    var device :- ReadDevice(input);
    return Ok(HeaderMiddle(ids.0, ids.1, ids.2, ids.3, device.0, device.1, device.2, device.3, device.4));
  }

  /** The last 48 bytes, each array filled by `read(byte[])` as far as the data goes. */
  method ReadHeaderEnd(input: ByteStream) returns (creator: seq<byte>, id: seq<byte>, reserved: seq<byte>)
    requires 0 <= input.pos
    modifies input
    ensures var d, q := input.data, old(input.pos);
      creator == Filled(d, q, 4) && id == Filled(d, q + 4, 16) && reserved == Filled(d, q + 20, 28)
    ensures old(input.CanRead(48)) ==> input.pos == old(input.pos) + 48
    ensures input.At(old(input.pos) + 48)
  {
    ghost var q := input.pos;
    // the position is not negative, so `read(byte[])` cannot fail
    var b := input.ReadAvailable(4);
    creator := b.value;
    assert input.At(q + 4);
    b := input.ReadAvailable(16);
    id := b.value;
    assert id == Filled(input.data, q + 4, 16);
    assert input.At(q + 20);
    b := input.ReadAvailable(28);
    reserved := b.value;
    assert reserved == Filled(input.data, q + 20, 28);
  }

  /** `new ICC_Header(in)`: the header read field by field, 128 bytes when every `read(byte[])` fills its array;
      an unknown data colour space or connection space throws, the data space as soon as its field is read. */
  method ReadHeader(input: ByteStream) returns (r: Result<IccHeader>)
    modifies input
    ensures r.Ok? <==> old(input.CanRead(80)) && ColorSpacesKnown(input.data, old(input.pos))
    ensures old(input.CanRead(20)) && !DataSpaceKnown(input.data, old(input.pos)) ==> r == Err(IllegalArgument)
    ensures old(input.CanRead(24)) && !ColorSpacesKnown(input.data, old(input.pos)) ==> r == Err(IllegalArgument)
    ensures r.Ok? ==> fresh(r.value) && r.value.Valid() && r.value.fields == FieldsAt(input.data, old(input.pos))
    ensures r.Ok? ==> r.value.deviceManufacturer.None? && r.value.profileCreator.None? && r.value.profileId.None?
    ensures r.Ok? && old(input.CanRead(128)) ==> input.pos == old(input.pos) + 128
    ensures r.Ok? ==> input.At(old(input.pos) + 128)
  {
    var start :- ReadHeaderStart(input);
    var middle :- ReadHeaderMiddle(input);
    var creator, id, reserved := ReadHeaderEnd(input);
    var header := new IccHeader(HeaderFields(start, middle, creator, id, reserved));
    r := Ok(header);
  }
}
